# Content moderation service: a verified model

The service accepts user content, has it moderated by an AI model through a job
queue and a worker pool, caches the results in Redis, and tells the owner over a
WebSocket. This project models its concurrent protocols in Dafny 4.11 and proves
what every run of them keeps. `dafny verify dfyconfig.toml` checks all of it.

How it is built:

- Each protocol is a state machine with a total `Apply(state, event)`: an event
  that is not enabled changes nothing, so every sequence of events is a run, and
  `Exec` runs it. The theorems quantify over all sequences, any number of callers,
  jobs, workers, clients or messages, and every failure and timing the events allow.
- The code that works in place is also written as imperative Dafny, following the
  source branch by branch: `CacheLock`, `ModerationService`, `PoolProgram`,
  `DeliveryProgram` (each shown to be a run of its machine, with arbitrary steps of
  everybody else between any two commands, so the theorems apply to it), and
  `Hub`, `Streaming`, `MockStore`, `Keyspace` (proved against specification
  functions directly).
- The modules named `...Laws`, and the laws beside the specification functions of
  `Backoff`, `Streaming`, `MockStore` and `Keyspace`, say what the machines and the
  functions compute in terms of replies, fields and numbers.

| files | subject |
|---|---|
| Entities, Backoff | shared values; retry delays in 64-bit arithmetic |
| Stampede, StampedeSafety, StampedeRuns, StampedeLaws, CacheLock | the cache-stampede lock |
| Moderation, Exclusion, Provenance, Finality, ModerationLaws, ModerationService | the moderation workflow and its idempotency key |
| Hub | the WebSocket hub |
| WorkerPool, PoolSafety, PoolLaws, PoolProgram | the worker pool |
| Delivery, DeliveryLaws, DeliveryProgram | job delivery, acknowledgement and dead letters |
| Routing | notifications from the status write to the client's channel |
| Streaming | the paged result stream |
| MockStore, Keyspace | the in-memory cache store; the Redis store and its key spaces |

Properties of the code that turned out not to hold in general are stated with
the exact condition under which they do hold, and a run that breaks them otherwise:

- AI calls for one content exclude each other, in all runs whose callers' contexts
  last at most B, if and only if B is at most the key's 30 s
  (`Exclusion.ExclusiveIffBudgetsFit`; `ExclusiveIffTimeoutFits` for the pool's timeout).
  The shipped timeout fits; one stream call with a longer deadline, or with none,
  overlaps with a pool job (`LongCallBreaksExclusion`).
- A decided status is not final. No step of any run with at most n pool jobs for a
  content overrules its decision if and only if n <= 1 (`Finality.FinalIffLoneJob`);
  whatever the number of jobs, none does if and only if the AI's answers for the
  content cannot carry both verdicts (`FinalIffOneVerdict`).
- Closing the job channel is safe if and only if no delivery callback is still in
  its select (`PoolSafety.CloseSafeIffNoOffers`).
- Workers are not joined when `Start` returns an error (`PoolSafety.ErrorReturnLeaksWorkers`).
- A dead letter may belong to a job that the pool has taken
  (`Delivery.DeadLetterOfQueuedJob`); it can never be one if and only if all callbacks
  of its message refuse it (`DeadLetterUnprocessedIff`).
- Cached results are out of reach of all locking if and only if the content id lacks
  both key prefixes (`Keyspace.SparedIffPlain`).
- The in-memory store's two boundary tests overlap in exactly one instant
  (`MockStore.BoundaryOverlap`).
- The backoff is free of overflow if and only if the last delay fits in 64 bits
  (`Backoff.NoOverflowIff`); the bound on the total sleep needs no such condition.

Assumptions. Lock tokens are distinct (the source makes them from the clock and a
random number). One Redis, SQL or NATS command is one atomic step; the reply may be
an error although the command ran. JSON encoding is injective on the values
modelled. A key is visible while the time is before its deadline, and idempotency
keys are not evicted. A command or AI call whose context is done has no effect. The
AI client returns a result whenever it returns no error. Content ids are never
reused. The pool's limiter wait may fail at any time, more often than it does.

## Model

| member | source | states |
|---|---|---|
| StampedeRuns.StampedeBound | internal/adapter/outbound/redis/lock.go:72-135 | In every run of any number of concurrent calls, fetchFn calls <= 1 (0 if the cache starts filled) + failed or wrong-typed fetches + lost cache writes + failed rechecks + holds that lost the lock + losses of the cached entry |
| StampedeRuns.FaultFreeRunFetchesOnce | internal/adapter/outbound/redis/stampede_test.go:79-87 | Without such faults, once some call has succeeded, fetchFn ran exactly once (never with a filled cache) and all successful calls returned the same result |
| StampedeRuns.PreloadedStays | internal/adapter/outbound/redis/lock.go:72-75 | In a run without faults an entry that is in the cache from the start stays there and nothing is fetched |
| StampedeRuns.AtMostOneHold | internal/adapter/outbound/redis/lock.go:31-38 | At most one caller holds an unexpired lease at any instant, for every interleaving |
| StampedeRuns.LateUnlockHarmless | internal/adapter/outbound/redis/lock.go:40-51 | The unlock of a caller whose lease vanished never touches its successor's lock |
| StampedeRuns.TimelyUnlockFrees | internal/adapter/outbound/redis/lock.go:40-51 | A caller that still holds its lease is the one in the lock cell, and its unlock frees the lock exactly when the command ran |
| StampedeRuns.ReleasedForGood | internal/adapter/outbound/redis/lock.go:93-120 | After an acknowledged unlock the lock cell never again holds this caller's token |
| StampedeRuns.HoldersReturnThroughUnlock | internal/adapter/outbound/redis/lock.go:93-120 | A call that acquired the lock leaves that state only through its unlock, with the outcome it had: hit, fetch error, bad type, write error or success |
| StampedeRuns.ResultWasCached | internal/adapter/outbound/redis/lock.go:72-133 | Every successful result was in the cache at some instant after the call began and before it returned |
| StampedeRuns.CallCosts | internal/adapter/outbound/redis/lock.go:72-135 | In every run a call makes at most maxRetries+1 lock attempts, maxRetries+2 cache reads and one fetch, and asks for at most retryDelay*(2^(maxRetries+1)-1) of sleep; a negative maxRetries makes no attempt |
| StampedeRuns.RunKeepsInvariant | internal/adapter/outbound/redis/lock.go:62-136 | Lock ownership and the amortised balance behind the two claims hold in every reachable state |
| StampedeLaws.LedgerExact | internal/adapter/outbound/redis/lock.go:72-135 | In every run the ledger of the stampede bound counts exactly the fetches begun and the faults of each kind, as seen from the steps |
| StampedeLaws.OutcomeCaused | internal/adapter/outbound/redis/lock.go:72-135 | In every run each outcome of a call was decided by a reply of that kind to that very call: lock error, fetch error, wrong type, write error, cancellation, a last miss, or a read or write of the returned result |
| StampedeLaws.DecidedAtOnce | internal/adapter/outbound/redis/lock.go:72-135 | Conversely, such a reply settles its call with that outcome at once |
| StampedeLaws.ExhaustedExactly | internal/adapter/outbound/redis/lock.go:88-135 | In every run a call that gives up made exactly maxRetries+1 lock attempts and maxRetries+2 reads and no fetch; if its delays fit in 64 bits it asked for exactly retryDelay*(2^(maxRetries+1)-1) of sleep, and that time has passed |
| StampedeLaws.ColdCallFetches | internal/adapter/outbound/redis/lock.go:86-120 | From empty cells an undisturbed call takes the lock, fetches once, returns the result, leaves it in the cache and the lock free |
| StampedeLaws.HitReturns | internal/adapter/outbound/redis/lock.go:72-76 | A filled cache answers a call at once, with no lock attempt, sleep or fetch |
| StampedeLaws.BusyAttempt | internal/adapter/outbound/redis/lock.go:122-134 | A busy attempt sleeps for its delay and no less, then returns what is in the cache, or goes to the next attempt, or gives up after the last |
| StampedeLaws.LeaseLasts | internal/adapter/outbound/redis/lock.go:31-38 | A lease taken on a free cell stands until its time-to-live has passed, and no longer; zero means for ever |
| StampedeLaws.EntryLasts | internal/adapter/outbound/redis/cache_store.go:48-61 | The written result stands in the cache until its time-to-live has passed, and no longer |
| StampedeSafety.OwnershipStep | internal/adapter/outbound/redis/lock.go:31-51 | Every step, including expiry and eviction, keeps: live holders own the lock cell, and the cell names a live holder or a caller whose reply was lost |
| StampedeSafety.BalancedStep | internal/adapter/outbound/redis/lock.go:88-134 | Every step keeps fetches + prepaid credits within faults + one fetch that is stored or on its way |
| Backoff.DelayIsWrappedProduct | internal/adapter/outbound/redis/lock.go:123 | Shifting first and truncating twice gives the same delay as truncating retryDelay*2^attempt once |
| Backoff.TotalWaitBound | internal/adapter/outbound/redis/lock.go:122-128 | The total sleep after n busy attempts is at most retryDelay*(2^n-1), overflow or not |
| Backoff.TotalWaitExact | internal/adapter/outbound/redis/lock.go:122-128 | Without overflow the sleeps of n busy attempts add up to exactly retryDelay*(2^n-1) |
| Backoff.WaitFirst | internal/adapter/outbound/redis/lock.go:123-127 | The first sleep is the configured delay |
| Backoff.WaitDoubles | internal/adapter/outbound/redis/lock.go:123-127 | Each next sleep is twice the one before, as long as that fits in 64 bits |
| Backoff.NoOverflowIff | internal/adapter/outbound/redis/lock.go:123 | No delay overflows if and only if retryDelay*2^maxRetries < 2^63 |
| CacheLock.WithCacheLock | internal/adapter/outbound/redis/lock.go:62-136 | The retry loop as a program: under any interference its execution is a run of the machine ending in this caller's return, its outcome was decided by a reply of that kind, a success was cached during the call, its costs are bounded, and exact when it gives up |
| CacheLock.FetchUnderLock | internal/adapter/outbound/redis/lock.go:93-121 | Recheck, fetch, type check, cache write and unlock on every path, as steps of a run |
| CacheLock.TryOnce | internal/adapter/outbound/redis/lock.go:89-124 | One attempt acquires, fails, or sleeps until now + delay of this attempt |
| CacheLock.SleepOnce | internal/adapter/outbound/redis/lock.go:124-128 | The select ends by cancellation or not before the timer's time |
| CacheLock.Redis.TryLock | internal/adapter/outbound/redis/lock.go:31-38 | SETNX: the lock cell is taken exactly if it was free and the command ran; acquired only if acknowledged |
| CacheLock.Redis.Unlock | internal/adapter/outbound/redis/lock.go:40-51 | Compare-and-delete: the cell is freed only of the caller's own token |
| Exclusion.OneAICallPerContent | internal/service/moderation_service.go:49-78 | When every caller's context lasts at most the key's lifetime, at most one live call is inside the AI call for a content, in every run |
| Exclusion.DeleteOnlyOwnKey | internal/service/moderation_service.go:58-62 | Under the same condition the unconditional delete never removes a key set by another job |
| Exclusion.ExclusiveIffBudgetsFit | internal/service/moderation_service.go:49-62 | All runs whose callers, pool or stream, have contexts of at most B are exclusive if and only if B <= the key's 30 s |
| Exclusion.ExclusiveIffTimeoutFits | internal/worker/pool.go:23-30 | Exclusion holds in all pool runs if and only if jobTimeout <= the key's 30 s |
| Exclusion.LongCallBreaksExclusion | internal/adapter/inbound/grpc/moderation_server.go:25-47 | For every caller whose context outlasts the key, or never ends, there is a run in which it and a pool job are both inside the AI call |
| Exclusion.StreamCallBreaksExclusion | internal/adapter/inbound/grpc/moderation_server.go:34-38 | With the shipped timeout all pool runs are exclusive, and a stream call whose client set no deadline gives a run that is not |
| Exclusion.ReleaseAttempted | internal/service/moderation_service.go:58-62 | In every run, a call that held the key at some instant has issued its release since, or still is between acquiring and releasing |
| Exclusion.TimedStep | internal/worker/pool.go:97-106 | Every step keeps: a live job that took the key still has it, and its deadline is no later than the key's |
| Provenance.StatusFromAI | internal/service/moderation_service.go:100-124 | In every run, an approved (rejected) status and its moderation id are those of an AI result produced earlier for that content which approves (does not) |
| Provenance.NotificationChain | internal/service/moderation_service.go:122-143 | Every published notification follows a status write on the same content, that write follows the AI answer, the kind is approved exactly if that answer approves, and the addressee is the content's owner |
| Provenance.CachedFromAI | internal/service/moderation_service.go:85-91 | A cached result is an AI answer for the content it is filed under |
| Provenance.NeverPendingAgain | internal/adapter/outbound/postgres/content_repository.go:92-111 | Once decided, a content is never pending again, whatever follows |
| Provenance.SourcedStep | internal/service/moderation_service.go:64-146 | Every step keeps the provenance of statuses, jobs, cached results and notifications |
| Finality.FinalIffLoneJob | internal/worker/pool.go:110-122 | No step of any run with at most n pool jobs for a content overrules its decision, if and only if n <= 1 |
| Finality.FinalIffOneVerdict | internal/service/moderation_service.go:108-124 | No step of any run whose AI answers for a content have allowed verdicts overrules its decision, if and only if not both verdicts are allowed |
| Finality.OverrulingNeedsTwoJobs | internal/service/moderation_service.go:37-98 | In every run, a decision that is overruled belongs to a content for which at least two pool jobs were started |
| Finality.TwoJobsOverrule | internal/service/moderation_service.go:45-62 | For every content and positive timeout there is a run in which a second job, having read the content pending, overrules the first |
| Finality.VerdictOverruled | internal/worker/pool.go:113-121 | From any state with a pending content and a free key, two jobs in turn can both decide it, the second write winning |
| ModerationLaws.DecidedNotModerated | internal/service/moderation_service.go:45-47 | Once a content is decided, no call for it begun afterwards gets past its lookup, in any continuation: no key, no AI call, no write |
| ModerationLaws.PhasesEarned | internal/service/moderation_service.go:41-56 | In every run a call past its lookup saw the content pending, one past the key took it acknowledged and free, and one about to notify had its status write acknowledged |
| ModerationLaws.RowsShowLastWrite | internal/adapter/outbound/postgres/content_repository.go:92-111 | In every run each content shows the verdict and id of the last result written to it, and is pending exactly if none was |
| ModerationLaws.AcquisitionReleased | internal/service/moderation_service.go:49-62 | Every acknowledged acquisition of a key has been followed by a release, or the call is still between the two |
| ModerationLaws.IneffectiveIsInert | internal/service/moderation_service.go:49-93 | A command that never ran or whose context is done changes no row, key, cached result or history |
| ModerationLaws.ErrorsEndTheCall | internal/service/moderation_service.go:41-56 | An error of the lookup, the key, the status write or the second lookup ends the call |
| ModerationLaws.AnswerSurvives | internal/service/moderation_service.go:88-97 | Failing to cache the answer or to release the key loses no answer |
| ModerationLaws.HandleRuns | internal/service/moderation_service.go:112-145 | An undisturbed handling makes the row approved exactly for an approving result, with its id, and then tells the owner that |
| ModerationLaws.UnsupportedNeverAsked | internal/service/moderation_service.go:67-74 | A content of an unsupported type gets no AI call, in any continuation |
| ModerationService.ModerateContent | internal/service/moderation_service.go:37-98 | As a program: a returned result is an AI answer stamped with this content's id, returned only by a call that itself saw the content pending and took its free key; whenever the call held the key, a logged release of it follows |
| ModerationService.HandleModerationResult | internal/service/moderation_service.go:100-146 | As a program: success means the write was acknowledged and the owner then told; every row shows approved or rejected as its last written result says |
| ModerationService.ProcessJob | internal/worker/pool.go:110-122 | A whole job under any interference: the provenance facts, and exclusion when all contexts fit, hold at its end |
| ModerationService.Stores.UpdateStatus | internal/adapter/outbound/postgres/content_repository.go:92-111 | The row gets verdict and result id without looking at its status; a missing row or failed command is an error |
| Hub.Hub.Run | internal/adapter/inbound/websocket/hub.go:106-157 | Over any sequence of connections, unregistrations, broadcasts and writer activity up to the shutdown: the k-th connection has its user's client; while filed its channel is open and taken + buffered messages equal exactly those broadcast to its user since it was opened, in order; it is not filed only if it was asked to go or a full channel's worth had entered, and then its channel is closed and its messages are a prefix of those |
| Hub.RosterStep | internal/adapter/inbound/websocket/hub.go:112-151 | One event of the loop keeps the account of every connection ever opened |
| Hub.Hub.Broadcast | internal/adapter/inbound/websocket/hub.go:139-150 | For any iteration order and any draining meanwhile: each of the user's clients gets the message or is closed and removed for being full, all others are untouched; with idle writers the clients and the two-level map are functions of what the broadcast found, so the order cannot matter |
| Hub.Hub.DeliverAll | internal/adapter/inbound/websocket/hub.go:141-150 | The loop over the snapshot offers the message to each client of it once, in any order |
| Hub.Hub.SendToClient | internal/adapter/inbound/websocket/hub.go:163-178 | Delivery if the channel has room, otherwise closing and removal |
| Hub.Hub.Register | internal/adapter/inbound/websocket/hub.go:114-122 | The client is filed under its user and owes nothing from before; no other client changes |
| Hub.Hub.Unregister | internal/adapter/inbound/websocket/hub.go:124-137 | Removes and closes a filed client, and does nothing to one that is gone, so the second unregister and one after an eviction are harmless |
| Hub.Hub.Open | internal/adapter/inbound/websocket/handler.go:24-30 | A connection makes a new client and registers it once, owing nothing from before; nobody else changes |
| Hub.Client.Take | internal/adapter/inbound/websocket/hub.go:85-96 | A writer's receive moves the oldest message from buffered to taken |
| Hub.BroadcastServes | internal/adapter/inbound/websocket/hub.go:139-178 | A broadcast that offered the message to exactly the user's filed clients leaves every client up to date or cut off |
| Hub.AllFatesCompose | internal/adapter/inbound/websocket/hub.go:148-150 | Two stages of a broadcast with disjoint clients compose to one |
| Hub.IdleOutcome | internal/adapter/inbound/websocket/hub.go:163-178 | With idle writers, what each client saw determines the one final state and the one final map: append, or close and remove, dropping users nobody is left of |
| Hub.FiledByMembers | internal/adapter/inbound/websocket/hub.go:27-29 | The two-level map is determined by which clients are filed in it |
| Hub.WithoutFiles | internal/adapter/inbound/websocket/hub.go:127-135 | Removing a client keeps all sets non-empty and filed under their own user, and removes nobody else |
| PoolSafety.JobsConserved | internal/worker/pool.go:53-58 | In every run: accepted jobs = queued + in progress + finished + dropped as multisets, queue <= 1000, in progress + dropped <= WorkerCount, and the WaitGroup counts the live workers |
| PoolSafety.DropIsLast | internal/worker/pool.go:97-101 | A worker that dropped a job never acts again |
| PoolSafety.NilReturnIsQuiet | internal/worker/pool.go:85-90 | When Start returns nil all workers have exited and no job is in progress; jobs remain queued only if every worker quit on a limiter error |
| PoolSafety.ShutdownBounded | internal/worker/pool.go:87-108 | After the close, in any schedule, the workers take at most as many steps as the measure at the close |
| PoolSafety.ShutdownProgress | internal/worker/pool.go:87-90 | While draining, either some worker can step or the WaitGroup is zero and Start can return |
| PoolSafety.MeasureStep | internal/worker/pool.go:97-108 | Once closed, each worker step decreases the measure and no other step increases it |
| PoolSafety.CloseSafeIffNoOffers | internal/worker/pool.go:73-87 | If no further delivery starts, closing can never lead to a send on the closed channel if and only if no callback is in its select |
| PoolSafety.ErrorReturnLeaksWorkers | internal/worker/pool.go:81-83 | After the error return no worker ever exits |
| PoolSafety.ConservedStep | internal/worker/pool.go:73-108 | Every step keeps the multiset equation of jobs |
| PoolLaws.OffersConserved | internal/worker/pool.go:73-80 | In every run the jobs delivered are those on offer, those accepted and those refused, as multisets: no delivery is accepted twice |
| PoolLaws.QueueInOrder | internal/worker/pool.go:73-97 | Workers receive the jobs in the order in which they were accepted, and the queue holds the rest |
| PoolLaws.RefusalsNeedCancel | internal/worker/pool.go:74-79 | A callback refuses its job only once the context is done |
| PoolLaws.GrantsPayForJobs | internal/worker/pool.go:97-105 | Each job in processing or finished was let through by the limiter |
| PoolProgram.Pool.Shutdown | internal/worker/pool.go:85-90 | Close and wait as a program under any scheduling: it terminates, and unless a late callback panics it ends with every worker exited and every accepted job accounted for |
| PoolProgram.Pool.WorkerTurn | internal/worker/pool.go:93-108 | The worker loop's next statement; after the close each one uses up the measure |
| PoolProgram.Pool.HandlerTurn | internal/worker/pool.go:73-80 | A callback's select: with room the job moves from the offers to the end of the queue, once; on the closed channel it panics; once cancelled it may refuse; or it waits |
| PoolProgram.Start | internal/worker/pool.go:48-91 | The whole of Start, with workers and callbacks active up to the close and beyond: what holds at its nil return and at its error return; a panic only after the close, with all jobs still conserved |
| Delivery.AnsweredOnce | internal/adapter/outbound/nats/broker.go:249-279 | In every run, a completed callback handed its message's job to the queue once and then sent one Ack, or handed over nothing and sent one Nak; malformed data gets a Nak |
| Delivery.SettledWasQueued | internal/adapter/outbound/nats/broker.go:146-165 | A message settled by an Ack did enter the queue, and no message's job enters it more than three times |
| Delivery.DeadLettersExhausted | internal/adapter/outbound/nats/broker.go:361-399 | Every dead letter carries the data, stream and sequence number of a message delivered three times and given up |
| Delivery.MailStep | internal/adapter/outbound/nats/broker.go:146-165 | Every step keeps: callbacks per message = its deliveries <= 3, exhausted only after three, settled only after queueing |
| DeliveryLaws.NoDeliveryAfterTheEnd | internal/adapter/outbound/nats/broker.go:146-165 | A settled or exhausted message stays so and is never delivered again, in any continuation |
| DeliveryLaws.AckSettles | internal/adapter/outbound/nats/broker.go:259-275 | An Ack that arrives settles its message; a Nak or a lost answer does not |
| DeliveryLaws.OnlyAckSettles | internal/adapter/outbound/nats/broker.go:259-275 | Nothing but an arriving Ack of one of its own callbacks settles a message |
| DeliveryLaws.DeliveryRuns | internal/adapter/outbound/nats/broker.go:253-275 | An undisturbed delivery of a well-formed job queues it once, acknowledges once and settles the message |
| DeliveryLaws.RunNotices | internal/adapter/outbound/nats/broker.go:361-377 | In every run the monitor has been told of every exhausted message |
| DeliveryLaws.ExhaustedCanBeFiled | internal/adapter/outbound/nats/broker.go:378-399 | Every exhausted message can be filed as a dead letter, with its data, stream and number, by one undisturbed run of the monitor |
| Delivery.PatientDeadLettersUnqueued | internal/adapter/outbound/nats/broker.go:361-399 | If no answer is lost and the server waits for a message's callbacks before giving it up, the job of an exhausted message never entered the queue |
| Delivery.DeadLetterUnprocessedIff | internal/adapter/outbound/nats/broker.go:249-279 | The job of an exhausted message can never enter the queue, in any continuation, if and only if each of its callbacks has refused it or cannot decode it |
| Delivery.DeadLetterOfQueuedJob | internal/adapter/outbound/nats/broker.go:361-399 | Otherwise there is a run whose dead letter is a job the pool has taken |
| DeliveryProgram.Broker.OnJob | internal/adapter/outbound/nats/broker.go:253-275 | The callback as a program under any interference: one answer, Ack exactly when its job was queued |
| DeliveryProgram.Broker.OnAdvisory | internal/adapter/outbound/nats/broker.go:363-399 | The monitor's callback under any interference: Ack exactly if the advisory is complete, the message was fetched and the publication acknowledged; a copy of the named message's data is filed if the publication ran; all dead letters stay copies of exhausted messages |
| Routing.OnlyOwnDecisionsArrive | internal/adapter/inbound/websocket/hub.go:139-187 | The hub run on whatever the stages before it dispatched, with duplicates and losses: every message in a client's channel announces a written AI decision on a content owned by that client's user |
| Routing.OnlyOwnDecisionsDispatched | internal/service/notification_bridge.go:27-41 | Across handler, bridge, Redis channel and broadcast queue: whatever reaches the hub for a user announces a written AI decision on a content of that user |
| Routing.RunRouted | internal/adapter/inbound/websocket/hub.go:159-187 | In every run each message on the way stems from a published notification for the user it is addressed to, and the moderation part of the run is a run of the workflow |
| Routing.DispatchedInOrder | internal/adapter/inbound/websocket/hub.go:159-187 | The hub gets the queued messages in order, the queue holding at most 100 |
| Routing.NotificationRuns | internal/service/notification_bridge.go:27-41 | A published notification, bridged and relayed, is queued for its user with its content and its verdict |
| Streaming.Server.StreamModerationResults | internal/adapter/inbound/grpc/content_server.go:56-123 | Authentication and permission errors exactly as coded; every sent message reports, field by field, the cached result of a content the caller owns; at a normal end all of these were sent, once each and in list order, after n/50+1 list calls, and otherwise a prefix of them |
| Streaming.Server.StreamAll | internal/adapter/inbound/grpc/content_server.go:77-122 | The paging loop equals the filter-map over the whole list |
| Streaming.Server.SendPage | internal/adapter/inbound/grpc/content_server.go:88-114 | One page's results are sent in order up to the first failed send; contents without a cached result are skipped |
| Streaming.Server.ListUserContents | internal/service/content_service.go:67-85 | The slice of the user's own contents from the offset on, of the given length if that is 1 to 100 and of 20 otherwise; an empty user is an error |
| Streaming.AnswersConcat | internal/adapter/inbound/grpc/content_server.go:88-114 | The filter-map of two lists is the concatenation of theirs |
| Streaming.OwnContents | internal/adapter/outbound/postgres/content_repository.go:82-84 | The user's contents are exactly the rows that name the user as owner, as often as there |
| Streaming.OwnInTableOrder | internal/adapter/outbound/postgres/content_repository.go:82-84 | ... and in the table's order |
| Streaming.OnlyOwnReported | internal/adapter/inbound/grpc/content_server.go:88-114 | Whatever is sent reports on own contents only, and a complete stream on all of them |
| Streaming.AnswerInPlace | internal/adapter/inbound/grpc/content_server.go:88-114 | Each content contributes its cached result exactly once, at its place |
| Streaming.PageSizeFitsIff | internal/service/content_service.go:72-74 | The paging loop visits all of every list if and only if the clamp leaves the page size unchanged |
| Streaming.PagedIsAll | internal/adapter/outbound/postgres/content_repository.go:82-84 | LIMIT/OFFSET pages of a size up to 100 concatenate to the rest of the list |
| MockStore.LazyExpiryInvisible | test/mock/mock_cache_store.go:35-132 | For every operation sequence under a non-decreasing clock, the store answers as one that never deletes on expiry |
| MockStore.StepInvisible | test/mock/mock_cache_store.go:43-51 | One operation gives the same answer in both stores and keeps them related |
| MockStore.BoundaryOverlap | test/mock/mock_cache_store.go:48-122 | A value is readable while its key is free for SetIfNotExists exactly at the deadline itself |
| MockStore.SetThen | test/mock/mock_cache_store.go:43-74 | A stored result is read back, whatever happens to other keys, up to and including its deadline, and its key is free from the deadline on |
| MockStore.AcquiredThen | test/mock/mock_cache_store.go:113-132 | An acquired key is free again from its deadline on, whatever happens to other keys |
| MockStore.InvalidateThen | test/mock/mock_cache_store.go:76-86 | An invalidated key is missing and free, whatever happens to other keys |
| MockStore.MockCacheStore.GetModerationResult | test/mock/mock_cache_store.go:35-56 | Reads as the never-deleting store does, deleting an expired item on the way |
| MockStore.MockCacheStore.SetModerationResult | test/mock/mock_cache_store.go:58-74 | Stores value and deadline in both views |
| MockStore.MockCacheStore.Invalidate | test/mock/mock_cache_store.go:76-86 | Deletes the key in both views |
| MockStore.MockCacheStore.SetIfNotExists | test/mock/mock_cache_store.go:113-132 | Acquires exactly when the never-deleting store would |
| Keyspace.SparedIffPlain | internal/service/moderation_service.go:49-59 | What is filed under an id is untouched by every sequence of lock and idempotency operations if and only if the id lacks both prefixes |
| Keyspace.SideKeysSeparate | internal/adapter/outbound/redis/lock.go:86 | The idempotency and lock keys are injective in the id and never coincide |
| Keyspace.LockCycle | internal/adapter/outbound/redis/lock.go:31-51 | A lock is taken only when absent and released only by its own token, leaving the store as it was |
| Keyspace.MarkCycle | internal/service/moderation_service.go:49-62 | A mark is taken only when absent, and its release does not ask whose it is |
| Keyspace.ResultReadsBack | internal/adapter/outbound/redis/cache_store.go:32-61 | A result stored under a plain id reads back unchanged after any such sequence |
| Keyspace.RedisCacheStore.GetModerationResult | internal/adapter/outbound/redis/cache_store.go:32-46 | A miss, a failed command and an undecodable value are errors; otherwise the stored value decoded |
| Keyspace.RedisCacheStore.SetModerationResult | internal/adapter/outbound/redis/cache_store.go:48-61 | Files the result under the id unless the command did not run |
| Keyspace.RedisCacheStore.Invalidate | internal/adapter/outbound/redis/cache_store.go:63-68 | Unconditional delete |
| Keyspace.RedisCacheStore.SetIfNotExists | internal/adapter/outbound/redis/cache_store.go:70-84 | Sets only an absent key and reports it only when acknowledged |

## Left out

- Finality.VerdictOverruled: shows that verdicts can be overruled; at-most-once moderation is not claimed, because the code does not keep it; the same module says exactly when a decision is final.
- PoolSafety.CloseSafeIffNoOffers: a late send is a separate panicked state; the theorems about a nil return concern runs that have not panicked.
- Delivery.SettledWasQueued: says nothing about messages that expire from the stream by age; the redelivery timers and the limit of 100 pending acknowledgements are left to the server, which may redeliver at any time.
- Routing.OnlyOwnDecisionsArrive: messages may be lost or repeated between the stages; delivery itself is proved only from the hub onwards. Texts that do not unmarshal may turn up on the Redis channel, but no other publisher of well-formed ones is modelled.
- Streaming.Server.StreamModerationResults: the contents and the cache are fixed during the call; a failing cache read counts as no cached result.
- Hub.Hub.Run: requests made after the hub stopped, the goroutines blocked on its unbuffered channels, and the connection gauge (decremented by both unregisters of a connection) are not modelled.
- The publication of moderation results to NATS and its subscription: nothing in the service acts on them.
- Scores, durations, model names, timestamps, message texts and span data: opaque to every protocol.
- The check at internal/adapter/outbound/redis/lock.go:78-83 has an empty body: every read error counts as a miss there, and in the model.
- The in-memory store's two texts for a missing and an expired item are one answer; its size, expiry and clear helpers are plain accessors.
- The in-memory repository lists in map order; paging is proved for the fixed order that the SQL query asks for.
- The pooled encoding buffers of the Redis store and the dead letter's copied headers.
- The circuit breaker: its state machine belongs to a library that is not part of this model.
- The token bucket of the limiter, stream set-up, connection set-up, HTTP and gRPC plumbing, authentication, metrics, tracing, logging and generated code.
- Entity validation and enum conversion: branch-by-branch facts; contents start pending with a supported type and a fresh id.
