# Pillar: verified models of the core protocols

Pillar is a ledger-backed payments platform: an HTTP API that turns mutations into queued
ledger commands, workers that submit them, a projection worker that folds ledger updates into
balances, a server-sent-events path to dashboards, and a set of smaller services (rate limits,
metering, migrations, webhooks, onboarding). This project models the parts whose correctness is
not visible in any one function and proves what they promise over all inputs, runs and
interleavings.

`dafny verify dfyconfig.toml` checks everything. One module per component:

| modules | component |
|---|---|
| `CommandIdentity`, `CommandTables`, `Database`, `IntentEnqueue`, `Dispatch` | the command id, the shared tables, the enqueue transaction, the dispatch order |
| `CommandProtocol`, `CommandSafety`, `CommandProgress`, `CommandPoller`, `CommandRuns` | any number of pollers as a state machine, its safety, what can still become of a request, the worker's code, and the link between the two |
| `Idempotency` | the idempotency-key store and the request hooks that drive it |
| `Projection`, `ProjectionProtocol`, `ProjectionCoverage` | balance projector, fenced checkpoints, resumable stream, their runs, and what offsets must be like for nothing to be lost |
| `SseBroker`, `SseDelivery`, `SseSubscribers` | the event broker, what its subscribers see, and what becomes of one from its subscription on |
| `SseWire`, `SseJson` | event-stream printer, incremental parser and re-printing proxy (sections 9.2.5 and 9.2.6 of the WHATWG HTML Standard) |
| `Decimal`, `CanonicalJson`, `CanonicalText`, `CanonicalHash`, `KeyOrder` | decimal normalisation, canonical JSON, request hash, entity tag |
| `TokenBuckets`, `TokenBudget`, `RequestLog` | the two rate limiters |
| `UsageMetering`, `UsageRollups` | usage consumer, rollups, reconciliation |
| `Migrations`, `Webhooks`, `FairDrain`, `Onboarding` | migration runner, webhook signatures, fair tenant drain, onboarding engine |
| `JsText`, `Options` | the JavaScript string operations and optional values used above |

How the models are built:

- Code that changes state is a class whose methods keep the source's fields and statements; each
  method's contract equates the new state with a function of the old one. What the component
  promises is then proved about those functions, usually for every run of a state machine whose
  steps are the source's statements or transactions.
- Concurrency is interleaving: a run is any list of actions, an action that is not enabled does
  nothing, and lost acknowledgements, swallowed exceptions and crashes are choices of the action.
  In `CommandProtocol` every SQL statement is a step of its own, so two pollers may interleave
  inside `insertAttempt`. Submissions stay in the network for ever: they may arrive late, never
  or many times, and the ledger refuses a command id it has committed.
- SHA-256, HMAC, the locale's key order, upper-casing and the success of an SQL script are
  parameters. Where a result needs digests not to collide it says for which texts.
- Numbers that the source keeps in 64 bits are wrapped explicitly in `Projection`; rate-limit
  arithmetic is over the reals, where rounding is not the point.

What the models found, each with a lemma:

- An idempotency row whose owner crashes, whose handler answers with a status of 400 or above
  without throwing, or whose release fails, stays `in_progress` for ever: every later claim of
  that key is refused, and nothing in the store reads `locked_until` (`OrphanedKeyIsStuck`,
  `HowKeysAreOrphaned`). An open key can be resolved exactly when a live request owns it
  (`OpenKeyResolvesIffOwned`).
- Two operations of one version share a command id exactly when a `|` occurs in a tenant or
  operation id (`AmbiguousAtIffBar`, `AmbiguousSharesItsId`).
- A poller that crashes leaves its claimed rows behind for good, since nothing reads when their
  lease ends; one left behind before its first attempt is never committed (`CrashAbandons`,
  `AbandonedStays`, `AbandonedIsNeverCommitted`).
- A projection worker can lose updates for good: exactly those with balance effects whose offset
  is not positive, is shared with an earlier update (`NeverLosesIffRetrievable`,
  `SharedOffsetIsLost`), or, while the ledger grows, does not lie beyond all offsets before it
  (`NeverLosesGrowingIffInOrder`, `LateUpdateIsLost`).
- An overflow marker carries the id of the newest event, not of the last one delivered, so a
  client that reconnects with it skips everything still queued
  (`MarkerNamesTheNewest`, `ResumingFromAMarkerLosesTheQueue`); which ids are safe is
  `ResumeMissesNothingIff`.
- Usage events of two tenants can displace each other exactly when a colon occurs in a tenant id
  or dedupe key (`KeyIsSharedIffColon`, `TenantsAreApart`).
- `normalizeDecimal` by itself is not idempotent on a padded decimal
  (`PaddedDecimalNeedsTwoPasses`, with the exact condition in `NormalizeTwice`); `norm`, which
  trims first, is.

## Model

| member | source | states |
|---|---|---|
| CommandIdentity.DistinctOperationsDistinctIds | services/ledger-command/src/main/kotlin/pillar/ledgercommand/dedup/CommandIdentity.kt:9-13 | two derived command ids are equal if and only if tenant, operation and version are, when ids hold no bar and the digests of these two texts do not collide |
| CommandIdentity.AmbiguousAtIffBar | services/ledger-command/src/main/kotlin/pillar/ledgercommand/dedup/CommandIdentity.kt:9-13 | an operation is hashed as the same text as another one of the same version if and only if its tenant or its own id holds a bar |
| CommandIdentity.AmbiguousIffBar | apps/api/src/db/intent-enqueue.ts:26-29 | it is hashed as the same text as any other operation, of whatever version, if and only if a bar occurs in tenant, operation or version |
| CommandIdentity.AmbiguousSharesItsId | services/ledger-command/src/main/kotlin/pillar/ledgercommand/dedup/CommandIdentity.kt:9-13 | whatever the digest, an operation with a bar in its tenant or id shares its command id with another one |
| IntentEnqueue.EnqueueIntent | apps/api/src/db/intent-enqueue.ts:51-79 | the transaction commits exactly when no key, no unique constraint on request or command id, and no statement raises; it then leaves the transaction's tables, otherwise all tables are untouched |
| IntentEnqueue.CommittedEnqueueAddsOneOfEach | apps/api/src/db/intent-enqueue.ts:70-76 | a committed enqueue adds exactly one API request, intent, operation and command request, with what the client sent and all naming one operation, and changes no other row of those tables |
| IntentEnqueue.CommitsIffUnique | apps/api/src/db/intent-enqueue.ts:51-79 | while request ids and command ids are unique, the transaction commits if and only if its four rows are new and both are still unique with them, and then they are |
| IntentEnqueue.CommittedEnqueuePassesIdentityCheck | apps/api/src/db/intent-enqueue.ts:26-40 | the stored command id equals the worker's own derivation from the columns the worker reads; a claimed idempotency key is bound to the operation, keeps its hash and response, and no other key changes |
| Dispatch.DispatchSelection | services/ledger-command/src/main/kotlin/pillar/ledgercommand/queue/CommandRequestPoller.kt:62-67 | the dispatch order has priorities descending and, among equals, availability ascending; it is a sub-multiset of the eligible requests with exactly min(k, eligible) per participant |
| Dispatch.KeptOfParticipant | services/ledger-command/src/main/kotlin/pillar/ledgercommand/queue/CommandRequestPoller.kt:64-66 | the kept requests of a participant are its first k in dispatch order |
| Dispatch.LeftOutIsOutranked | services/ledger-command/src/main/kotlin/pillar/ledgercommand/queue/CommandRequestPoller.kt:62-67 | an eligible request left out has k kept requests of its own participant that all come before or tie with it |
| Dispatch.SelectForClaimFacts | services/ledger-command/src/main/kotlin/pillar/ledgercommand/queue/CommandRequestRepository.kt:44 | claiming keeps a sub-multiset of the selected rows, at most `limit` in all and at most `participantLimit` per participant |
| Dispatch.LeftUnclaimedMeansFull | services/ledger-command/src/main/kotlin/pillar/ledgercommand/queue/CommandRequestRepository.kt:44 | a row read but not claimed means that `limit` rows are claimed, or `participantLimit` of its own participant |
| Dispatch.SortKeepsTies | services/ledger-command/src/main/kotlin/pillar/ledgercommand/queue/CommandRequestPoller.kt:62-67 | sorting is stable: requests that tie stay in the order they were read |
| Dispatch.GroupedCounts | services/ledger-command/src/main/kotlin/pillar/ledgercommand/queue/CommandRequestRepository.kt:44 | grouping and taking keeps each request as often as it stands among the first k of its participant |
| CommandPoller.CommandRequestRepository.ClaimPending | services/ledger-command/src/main/kotlin/pillar/ledgercommand/queue/CommandRequestRepository.kt:24-62 | exactly the selected rows become claimed under the lease, and they are what is returned |
| CommandPoller.CommandRequestRepository.EnsureCommandIdentity | services/ledger-command/src/main/kotlin/pillar/ledgercommand/queue/CommandRequestRepository.kt:64-82 | succeeds unless another id is stored; an absent id is filled in, a stored one is never changed |
| CommandPoller.CommandRequestRepository.InsertAttempt | services/ledger-command/src/main/kotlin/pillar/ledgercommand/queue/CommandRequestRepository.kt:84-102 | appends one attempt numbered one above the operation's greatest, or raises and changes nothing when the submission id exists |
| CommandPoller.CommandRequestRepository.MarkSubmitted | services/ledger-command/src/main/kotlin/pillar/ledgercommand/queue/CommandRequestRepository.kt:104-117 | the request becomes submitted; the operation too unless its exception is swallowed |
| CommandPoller.CommandRequestRepository.RetryRequest | services/ledger-command/src/main/kotlin/pillar/ledgercommand/queue/CommandRequestRepository.kt:119-131 | the request is received again one second later, or unknown when that fails; the operation becomes unknown |
| CommandPoller.CommandRequestRepository.FailRequest | services/ledger-command/src/main/kotlin/pillar/ledgercommand/queue/CommandRequestRepository.kt:133-145 | the request becomes failed; the operation too unless its exception is swallowed |
| CommandPoller.CommandRequestPoller.ProcessClaim | services/ledger-command/src/main/kotlin/pillar/ledgercommand/queue/CommandRequestPoller.kt:42-60 | the tables, the exception and the submission of one claim are those of the specification, for every outcome of the surroundings |
| CommandPoller.CommandRequestPoller.PollOnce | services/ledger-command/src/main/kotlin/pillar/ledgercommand/queue/CommandRequestPoller.kt:34-40 | a round claims the selection and processes it in order until an exception; its count, tables and submissions are those of the specification |
| CommandRuns.PollOnceIsRun | services/ledger-command/src/main/kotlin/pillar/ledgercommand/queue/CommandRequestPoller.kt:34-60 | every undisturbed round of the code is a run of the protocol: some list of protocol steps leads to exactly its tables and submissions |
| CommandSafety.HeldByAtMostOne | services/ledger-command/src/main/kotlin/pillar/ledgercommand/queue/CommandRequestRepository.kt:24-62 | in every reachable state of any pollers no request is held twice |
| CommandSafety.AttemptsShareOneCommandId | services/ledger-command/src/main/kotlin/pillar/ledgercommand/queue/CommandRequestRepository.kt:84-102 | in every reachable state the attempts of an operation carry its one derived command id and are numbered exactly 1 to n |
| CommandSafety.AtMostOneEffectPerOperation | services/ledger-command/src/main/kotlin/pillar/ledgercommand/queue/CommandRequestPoller.kt:42-60 | over every run, with crashes, retries and unknown outcomes, the ledger commits no operation twice |
| CommandSafety.RefusedMeansCommitted | services/ledger-command/src/main/kotlin/pillar/ledgercommand/queue/CommandRequestPoller.kt:52-59 | a submission is refused only when its own operation has been committed, when queued ids hold no bar and the digests of the queued texts do not collide |
| CommandSafety.RunKeepsStoredId | services/ledger-command/src/main/kotlin/pillar/ledgercommand/queue/CommandRequestRepository.kt:69-80 | a stored command id never changes in any run |
| CommandSafety.ForeignIdNeverSubmitted | services/ledger-command/src/main/kotlin/pillar/ledgercommand/queue/CommandRequestPoller.kt:45-48 | an operation whose stored id is not the derived one is never attempted and never committed |
| CommandSafety.EnqueuedNeverFailsIdentity | services/ledger-command/src/main/kotlin/pillar/ledgercommand/queue/CommandRequestPoller.kt:44-48 | no poller ever fails the identity check of an operation the API enqueued, whatever happens in between |
| CommandProgress.ClaimTakesWaiting | services/ledger-command/src/main/kotlin/pillar/ledgercommand/queue/CommandRequestRepository.kt:24-62 | a free poller that is offered a row takes it, with the lease, if and only if its status is received, queued or pending and it is due; otherwise nothing changes |
| CommandProgress.ColumnsRead | services/ledger-command/src/main/kotlin/pillar/ledgercommand/queue/CommandRequestRepository.kt:26-34 | each column a poller reads is the column, else what its payload says, else the default |
| CommandProgress.EnqueuedCanBeClaimed | apps/api/src/db/intent-enqueue.ts:70-76 | after a committed enqueue any free poller takes that request, at once or at any later time, and reads of it the tenant, type, version and payload the client sent |
| CommandProgress.WaitingCanBeCommittedIff | services/ledger-command/src/main/kotlin/pillar/ledgercommand/queue/CommandRequestPoller.kt:34-60 | in every reachable state, a waiting request whose derived id the ledger does not hold yet can be brought to a commit of its operation, by a free poller, if and only if no other command id is stored for it |
| CommandProgress.EnqueuedCanBeCommitted | apps/api/src/db/intent-enqueue.ts:51-79 | from any state, enqueueing, claiming, submitting and delivering leads to exactly one more commit, of the new operation under the returned id, unless the ledger has that id already |
| CommandProgress.WaitingIsFailed | services/ledger-command/src/main/kotlin/pillar/ledgercommand/queue/CommandRequestPoller.kt:45-48 | a request whose operation has another id stored ends failed, with nothing submitted |
| CommandProgress.FailedStays | services/ledger-command/src/main/kotlin/pillar/ledgercommand/queue/CommandRequestRepository.kt:133-145 | a failed, unknown or completed row is unchanged in every run |
| CommandProgress.ThrownWaitsASecond | services/ledger-command/src/main/kotlin/pillar/ledgercommand/queue/CommandRequestRepository.kt:119-131 | after building or submitting throws, the request is claimable again exactly from one second later on if its row could be written, and never otherwise |
| CommandProgress.AbandonedStays | services/ledger-command/src/main/kotlin/pillar/ledgercommand/queue/CommandRequestRepository.kt:36-37 | a row that is neither waiting nor held by a poller stays as it is in every run |
| CommandProgress.CrashAbandons | services/ledger-command/src/main/kotlin/pillar/ledgercommand/queue/CommandRequestRepository.kt:45-52 | a crash leaves every row its poller held in that condition |
| CommandProgress.AbandonedIsNeverCommitted | services/ledger-command/src/main/kotlin/pillar/ledgercommand/queue/CommandRequestRepository.kt:36-37 | a request left behind before its first attempt is never committed in any run |
| CommandProgress.SubmissionIdsAreAttempts | services/ledger-command/src/main/kotlin/pillar/ledgercommand/queue/CommandRequestRepository.kt:104-117 | in every run the submission id an operation shows is that of one of its own attempts |
| Idempotency.IdempotencyStore.Claim | packages/idempotency/src/state-machine.ts:28-67 | `new` is answered exactly without contention and without a row, and inserts an open row with the hash; a row is answered conflict, completed or in progress by its hash and response, with its bound operation, and nothing changes |
| Idempotency.IdempotencyStore.Complete | packages/idempotency/src/state-machine.ts:69-72 | the row, if it exists, gets the response and keeps its hash |
| Idempotency.IdempotencyStore.Release | packages/idempotency/src/state-machine.ts:74-77 | the row goes exactly if it is not completed |
| Idempotency.AtMostOneOwner | apps/api/src/middleware/idempotency.ts:64-90 | over every interleaving of claims, completions, releases and crashes at most one request owns a key |
| Idempotency.CompletedIsForever | packages/idempotency/src/state-machine.ts:69-77 | a completed row is never deleted, overwritten or taken over in any run |
| Idempotency.LaterClaims | packages/idempotency/src/state-machine.ts:37-60 | any later claim of a completed key gets the stored response for the same hash, a conflict for another, and a transient `in_progress` only while the lock is taken |
| Idempotency.ReplaysComeFromTheSameRequest | apps/api/src/middleware/idempotency.ts:66 | every replayed response was produced by a successful handler for the same key and hash |
| Idempotency.OrphanedKeyIsStuck | apps/api/src/middleware/idempotency.ts:71-90 | an open row without an owner stays as it is in every run and is never answered `new` or `completed` |
| Idempotency.HowKeysAreOrphaned | apps/api/src/middleware/idempotency.ts:71-90 | a step leaves an owned open key without an owner if and only if it is a crash of the owner at any point, an error status without an exception, or a release that takes no effect |
| Idempotency.OpenKeyResolvesIffOwned | packages/idempotency/src/state-machine.ts:59-60 | an open key can still be completed or freed if and only if a live request owns it |
| Idempotency.ClaimOwnsIffFree | packages/idempotency/src/state-machine.ts:36-49 | in every reachable state an uncontended claim makes the request the owner if and only if its key has no row, and then leaves an open row with its hash; a contended one changes nothing |
| Idempotency.ClaimOfTakenKey | apps/api/src/middleware/idempotency.ts:64-67 | a request whose key has a row is told reused, the stored response, or processing, by hash and response |
| Idempotency.BoundOperationIsTold | packages/idempotency/src/state-machine.ts:50-60 | while a handler runs, claims of its key are told the operation it has bound |
| Idempotency.CanStillOwnIff | packages/idempotency/src/state-machine.ts:36-77 | a request that has arrived can still come to own its key, in some continuation, if and only if the key is free or open in the hands of a live request |
| Idempotency.SuccessIsReplayed | apps/api/src/middleware/idempotency.ts:64-84 | what a handler answers is sent, stored, and replayed to every later request with the same key and hash, whatever happens in between |
| Idempotency.ClientIsToldTheResult | apps/api/src/middleware/idempotency.ts:71-90 | a client is told its own handler's result, or nothing, whether or not the key could be completed or released |
| Projection.BalanceProjector.ApplyDelta | services/projection-worker/src/main/kotlin/pillar/projectionworker/projectors/BalanceProjector.kt:5 | a seen id changes nothing; a new one adds its deltas in 64-bit arithmetic and raises the row's offset |
| Projection.CheckpointRepository.Acquire | services/projection-worker/src/main/kotlin/pillar/projectionworker/ledger/CheckpointRepository.kt:4 | the token handed out is one more than the last, and only that token changes |
| Projection.CheckpointRepository.AdvanceInTransaction | services/projection-worker/src/main/kotlin/pillar/projectionworker/ledger/CheckpointRepository.kt:4 | a stale token changes nothing; a failing write leaves its partial effects and the old checkpoint; success moves the checkpoint to the greater offset |
| Projection.ResumeIsTheRest | services/projection-worker/src/main/kotlin/pillar/projectionworker/ledger/UpdateStreamReader.kt:5 | resume yields exactly the updates beyond the offset, each as often as it stands in the stream, in offset order |
| Projection.WrapAbsorbs | services/projection-worker/src/main/kotlin/pillar/projectionworker/projectors/BalanceProjector.kt:4-5 | wrapping after each addition equals wrapping the exact sum once |
| Projection.Wrap | services/projection-worker/src/main/kotlin/pillar/projectionworker/projectors/BalanceProjector.kt:4-5 | the result fits in 64 bits, is congruent to the exact number, and is that number if it fits |
| ProjectionProtocol.RowsAreSumsOfDistinctEffects | services/projection-worker/src/main/kotlin/pillar/projectionworker/projectors/BalanceProjector.kt:5 | in every run of workers that stall, crash, are superseded and replay, each row is the sum of the distinct effects applied to its key |
| ProjectionProtocol.FittingRowsAreExact | services/projection-worker/src/main/kotlin/pillar/projectionworker/projectors/BalanceProjector.kt:5 | in every run, a row whose exact sums fit in 64 bits holds those sums, field by field, whatever overflowed on the way |
| ProjectionCoverage.CheckpointLosesNothing | services/projection-worker/src/main/kotlin/pillar/projectionworker/ledger/CheckpointRepository.kt:4 | every update the checkpoint has passed has been applied in full, in every run whose offsets are as the next rows say |
| ProjectionCoverage.CaughtUpRowsAreTheFold | services/projection-worker/src/main/kotlin/pillar/projectionworker/ledger/UpdateStreamReader.kt:5 | once the checkpoint has reached the end, each row is the plain fold of the ledger |
| ProjectionCoverage.CaughtUpRowsAreExact | services/projection-worker/src/main/kotlin/pillar/projectionworker/projectors/BalanceProjector.kt:5 | once caught up, a row whose fold fits in 64 bits is that fold, field by field |
| ProjectionCoverage.NeverLosesIffRetrievable | services/projection-worker/src/main/kotlin/pillar/projectionworker/ledger/UpdateStreamReader.kt:5 | no run over a ledger ever passes an update without applying it if and only if every update with balance effects has a positive offset that no earlier update has |
| ProjectionCoverage.NeverLosesGrowingIffInOrder | services/projection-worker/src/main/kotlin/pillar/projectionworker/ledger/UpdateStreamReader.kt:5 | no run that ends with a ledger, however it grew meanwhile, does so if and only if every update with balance effects arrives with a positive offset beyond all before it |
| ProjectionCoverage.SharedOffsetIsLost | services/projection-worker/src/main/kotlin/pillar/projectionworker/ledger/CheckpointRepository.kt:4 | for any ledger with a second update at an offset, a worker that acquires, loads, advances to the first and crashes leaves the second behind |
| ProjectionCoverage.LateUpdateIsLost | services/projection-worker/src/main/kotlin/pillar/projectionworker/ledger/UpdateStreamReader.kt:5 | for any ledger with an update whose offset an earlier one has reached, a run loses it by receiving it late |
| ProjectionCoverage.LostStaysLost | services/projection-worker/src/main/kotlin/pillar/projectionworker/ledger/UpdateStreamReader.kt:5 | what is left behind is never applied by any worker that acquires, loads or advances later |
| ProjectionProtocol.OnlyTheLatestHolderWrites | services/projection-worker/src/main/kotlin/pillar/projectionworker/ledger/CheckpointRepository.kt:4 | an advance that changes anything carries the current token, and every other worker's token is older |
| ProjectionProtocol.SupersededNeverWrites | services/projection-worker/src/main/kotlin/pillar/projectionworker/ledger/Lease.kt:4 | a superseded worker's advances change nothing in any continuation until it acquires anew |
| ProjectionProtocol.NothingGoesBack | services/projection-worker/src/main/kotlin/pillar/projectionworker/ledger/CheckpointRepository.kt:4 | tokens, offsets and the set of seen effects never shrink in any run |
| ProjectionCoverage.NonPositiveOffsetsAreNeverResumed | services/projection-worker/src/main/kotlin/pillar/projectionworker/ledger/UpdateStreamReader.kt:5 | an update at offset 0 or below is never handed to a worker |
| SseBroker.KeyForInjective | apps/api/src/services/sse-broker/Broker.ts:6 | rings are never shared by two tenants or modes, whatever characters tenants use |
| SseBroker.Subscriber.Receive | apps/api/src/services/sse-broker/Broker.ts:21-31 | a matching event is queued, dropping the oldest and raising the flag when full; any other changes nothing |
| SseBroker.Subscriber.Next | apps/api/src/services/sse-broker/Broker.ts:44-52 | the iterator yields the marker when flagged, else the head of the queue, else waits |
| SseBroker.Broker.Publish | apps/api/src/services/sse-broker/Broker.ts:13-32 | an unlawful id changes nothing; otherwise the ring keeps its last `capacity` events and each subscriber receives the event once |
| SseBroker.Broker.Subscribe | apps/api/src/services/sse-broker/Broker.ts:34-39 | the new subscriber holds the matching part of the ring after the given id, or nothing without one |
| SseBroker.Broker.Close | apps/api/src/services/sse-broker/Broker.ts:41 | the subscriber is closed and leaves the set; nobody else does |
| SseDelivery.DeliveredInOrder | apps/api/src/services/sse-broker/Broker.ts:21-52 | over every run delivered events are events of the subscriber's stream at strictly growing positions |
| SseDelivery.NoSilentGap | apps/api/src/services/sse-broker/Broker.ts:24-51 | two delivered events with no marker between them are adjacent in the stream |
| SseDelivery.StartsAtTheBeginning | apps/api/src/services/sse-broker/Broker.ts:34-51 | a first item that is an event is the first of the stream |
| SseDelivery.MarkersMeanLoss | apps/api/src/services/sse-broker/Broker.ts:24-48 | between two delivered events at least as many events are missing as there are markers |
| SseDelivery.WaitingMeansCaughtUp | apps/api/src/services/sse-broker/Broker.ts:44-53 | a subscriber that waits after an event has seen its stream to the end |
| SseDelivery.NoEventCrosses | apps/api/src/services/sse-broker/Broker.ts:21-23 | every delivered event is of the subscriber's tenant and mode, and of a kind on its list unless the list is empty |
| SseDelivery.ResumeStartsAtTheNextEvent | apps/api/src/services/sse-broker/Broker.ts:36-38 | resuming after an id still in the ring starts at exactly the next matching event |
| SseDelivery.StreamFollowsTheLog | apps/api/src/services/sse-broker/Broker.ts:13-39 | in every continuation the stream is the matching part of the log from the same start, up to the present while open |
| SseDelivery.MarkerNamesTheNewest | apps/api/src/services/sse-broker/Broker.ts:29-48 | an overflow marker carries the id of the newest event offered to the subscriber, under its own tenant and mode |
| SseDelivery.ResumingFromAMarkerLosesTheQueue | apps/api/src/services/sse-broker/Broker.ts:37-47 | a client that resumes with a marker's id starts with an empty stream although events were queued for it |
| SseDelivery.ResumeMissesNothingIff | apps/api/src/services/sse-broker/Broker.ts:36-38 | resuming after a retained id misses no event if and only if no event of the stream up to that id lies beyond the last one handed over |
| SseSubscribers.FreshSubscriberGetsWhatFollows | apps/api/src/services/sse-broker/Broker.ts:34-39 | after any run, a subscriber without an id, or with an empty one, starts empty at the end of the log, and in every continuation, while open, its stream is exactly the events accepted for its tenant, mode and kinds after it subscribed |
| SseSubscribers.RunStream | apps/api/src/services/sse-broker/Broker.ts:13-32 | in every run the stream of an open subscriber grows by exactly the events published with a lawful id for its tenant, mode and kinds |
| SseSubscribers.UnknownIdReplaysTheRing | apps/api/src/services/sse-broker/Broker.ts:36-38 | a subscriber with an id the ring does not hold starts with the wanted part of the last `capacity` events |
| SseSubscribers.PullingEmptiesTheQueue | apps/api/src/services/sse-broker/Broker.ts:44-52 | a subscriber that keeps pulling gets the marker, if the flag is up, and then everything queued, in order, up to the newest event of its stream |
| SseSubscribers.MarkerOnlyWhenFull | apps/api/src/services/sse-broker/Broker.ts:24-31 | in every run a marker is handed out only with at least the capacity of events behind it, and no queue outgrows the greater of the two capacities |
| SseSubscribers.ClosedSeesNoMore | apps/api/src/services/sse-broker/Broker.ts:41-44 | once closed a subscriber is handed nothing more in any run |
| SseWire.ParseRaw | apps/dashboard/src/server/sse/clientFactory.ts:18-23 | the line loop computes the parse of a frame |
| SseWire.CreateEventStream | apps/dashboard/src/server/sse/clientFactory.ts:11-26 | the messages and the remaining buffer depend on the concatenated text only, not on where it was cut |
| SseWire.TenantStream | apps/dashboard/src/server/sse/tenantStream.ts:16 | the proxy writes the re-print of every message in order |
| SseWire.DrainInPieces | apps/dashboard/src/server/sse/clientFactory.ts:12-26 | draining a text in two pieces yields what draining it at once does |
| SseWire.PrintParseRoundTrip | apps/api/src/routes/v1/events-stream.ts:7-29 | printed events and pings, cut anywhere, parse to exactly those events in order with nothing left over |
| SseWire.ParserYieldsFields | apps/dashboard/src/server/sse/clientFactory.ts:17-24 | whatever text arrives, parsed messages have trimmed one-line fields |
| SseWire.ProxyIsTransparent | apps/dashboard/src/server/sse/tenantStream.ts:14-18 | for any upstream text the browser parses what the proxy parsed, less empty ids |
| SseWire.PrintedEventsSurviveTheProxy | apps/dashboard/src/server/sse/tenantStream.ts:16 | events with ids come out of the proxy exactly as printed, in order |
| SseWire.ForwardAllIsIdentity | apps/dashboard/src/server/sse/tenantStream.ts:16 | the proxy changes no message exactly when none has an empty id |
| SseWire.OtherFrames | apps/dashboard/src/server/sse/clientFactory.ts:18-23 | a frame without an event line is a "message", data lines are joined directly, and lines of other fields are passed over |
| SseJson.JsonIsAField | apps/api/src/routes/v1/events-stream.ts:8 | the JSON text of any payload is one trimmed line |
| SseJson.EventsReachTheBrowser | apps/api/src/routes/v1/events-stream.ts:7-29 | any events with any JSON payloads, with keepalives, arrive through route, parser, proxy and parser complete and in order, however both texts are cut |
| SseJson.DataTellsPayloadsApart | apps/api/src/routes/v1/events-stream.ts:8 | two payloads arrive as the same data only if they are the same |
| Decimal.NormalFormKeepsValue | packages/idempotency/src/canonical-hash.ts:16-25 | the normal form of a decimal is a canonical decimal of the same value |
| Decimal.SameNormalFormIffSameValue | packages/idempotency/src/canonical-hash.ts:14-25 | two decimals have the same normal form if and only if they denote the same number |
| Decimal.CanonicalIffFixed | packages/idempotency/src/canonical-hash.ts:16-25 | a decimal is its own normal form exactly when it has no superfluous zero and is no negative zero |
| Decimal.NormalizeTwice | packages/idempotency/src/canonical-hash.ts:17 | a second pass of `normalizeDecimal` changes nothing if and only if what was trimmed needed no further work |
| Decimal.PaddedDecimalNeedsTwoPasses | packages/idempotency/src/canonical-hash.ts:17 | a padded decimal does change on the second pass |
| Decimal.NormStringIdempotent | packages/idempotency/src/canonical-hash.ts:36 | what `norm` does to a string, it does once and for all |
| JsText.TrimIffPads | packages/idempotency/src/canonical-hash.ts:36 | trimming gives the one trimmed text of which the string is a copy with white space around it |
| Decimal.DecimalsAreSpelledOut | packages/idempotency/src/canonical-hash.ts:14 | the pattern accepts exactly an optional minus, digits, and optionally a point and digits |
| Decimal.SameNormString | packages/idempotency/src/canonical-hash.ts:36 | two strings normalise alike if and only if both are one text with white space around it, or two spellings, with white space around them, of one number |
| CanonicalJson.ArrangeDecides | packages/idempotency/src/canonical-hash.ts:27-38 | sorting keys at every depth and rewriting leaves gives equal results exactly for alike values |
| CanonicalText.Readable | apps/api/src/middleware/etag.ts:4-9 | a JSON text begins with at most one value |
| CanonicalText.StringifyInjective | packages/idempotency/src/canonical-hash.ts:41 | two values with the same JSON text are equal |
| CanonicalText.EscapeStandsForItsCharacter | packages/idempotency/src/canonical-hash.ts:41 | every character of a string is written as something that stands for it by section 7 of RFC 8259 |
| CanonicalHash.PrintsWhatItArranges | apps/api/src/middleware/etag.ts:4-9 | the tag printer's own recursion equals JSON.stringify after sorting the keys |
| CanonicalHash.EtagTextDecides | apps/api/src/middleware/etag.ts:4-9 | two payloads have the same tag text if and only if they are equal up to key order at every depth |
| CanonicalHash.ConditionalGet | apps/api/src/middleware/etag.ts:12-22 | a client sending back its tag gets an empty 304 exactly when the resource is what it has seen, up to key order, and the full payload with its own status otherwise |
| CanonicalHash.OnlyGoodGetsAreTagged | apps/api/src/middleware/etag.ts:13-21 | a reply is tagged if and only if it is to a GET and below 300; any other keeps status and payload |
| CanonicalHash.NormIdempotent | packages/idempotency/src/canonical-hash.ts:27-38 | normalising a body twice changes nothing |
| CanonicalHash.ReorderedIsAlike | packages/idempotency/src/canonical-hash.ts:29-35 | an object with its entries in another order is alike |
| CanonicalHash.RequestHashDecides | packages/idempotency/src/canonical-hash.ts:55-66 | two requests hash alike if and only if method, path and version agree, the version headers are one text with white space around it, and the bodies are both without content or alike up to key order, padding and decimal spelling |
| TokenBuckets.InMemoryHierarchicalRateLimiter.Check | packages/security/src/rate-limit/buckets.ts:4 | the states after a check and its result: admitted exactly when every bucket can pay, refused with the first that cannot, tightest bucket and reset time reported |
| TokenBuckets.Tight | packages/security/src/rate-limit/buckets.ts:4 | the reduce picks the last bucket with the fewest tokens |
| TokenBudget.CallCharges | packages/security/src/rate-limit/buckets.ts:4 | an admitted check takes its cost from every bucket it names and from no other; a refused one takes nothing at any later time |
| TokenBudget.DeniedUntilReset | packages/security/src/rate-limit/buckets.ts:4 | the bucket that refused can pay, left alone, exactly from the reported reset time on, and never if it is too small or not refilled |
| TokenBudget.FullAgainAtReset | packages/security/src/rate-limit/buckets.ts:4 | a charged bucket is full again, left alone, exactly from its reset time on |
| TokenBudget.RefusalReport | packages/security/src/rate-limit/buckets.ts:4 | a refused caller is told the first bucket that could not pay, its capacity, its whole tokens, and the time from which it can |
| TokenBudget.AdmissionReport | packages/security/src/rate-limit/buckets.ts:4 | an admitted caller is told, of the bucket that holds least after the charge, the capacity, the whole tokens left, and the time from which it is full |
| TokenBudget.FirstCallAdmittedIffItFits | packages/security/src/rate-limit/buckets.ts:4 | a first call is admitted if and only if no bucket is smaller than its cost |
| TokenBudget.RefillComposes | packages/security/src/rate-limit/buckets.ts:4 | refilling up to a moment and then on equals refilling at once |
| TokenBudget.RefusalLeavesNoTrace | packages/security/src/rate-limit/buckets.ts:4 | a refused check changes no decision of any later run |
| TokenBudget.TokensStayInRange | packages/security/src/rate-limit/buckets.ts:4 | over every run tokens stay within 0 and capacity |
| TokenBudget.SpentPlusLeft | packages/security/src/rate-limit/buckets.ts:4 | what is spent and what is left never exceed what was there and what was earned |
| TokenBudget.WindowBound | packages/security/src/rate-limit/buckets.ts:4 | in any window of any run the cost admitted on a bucket is at most its capacity plus what it earns in the window |
| RequestLog.RateLimit.PreHandler | apps/api/src/middleware/rate-limit.ts:5-13 | refuses exactly when the recent entries fill the limit, recording nothing; otherwise keeps the recent entries and the new one |
| RequestLog.AtMostRpmPerWindow | apps/api/src/middleware/rate-limit.ts:9-11 | for every key, run and window of 60000 ms at most `rpm` requests are admitted |
| RequestLog.AdmissionsAreSpaced | apps/api/src/middleware/rate-limit.ts:9-11 | an admission and the one `rpm` later of the same key are at least 60000 ms apart |
| RequestLog.RefusedIffWindowFull | apps/api/src/middleware/rate-limit.ts:9-10 | a request is refused if and only if the `rpm`-th last admission of its key, of all there ever were, is less than 60000 ms old, or the limit is not positive |
| UsageMetering.StreamConsumer.Consume | services/usage-meter/src/consumer/StreamConsumer.ts:5-7 | a delivery is rejected, a duplicate or accepted, and only an accepted one is appended |
| UsageMetering.RowsFacts | services/usage-meter/src/consumer/StreamConsumer.ts:5-7 | rows are acceptable deliveries, one per dedupe key, and no acceptable key is missing |
| UsageMetering.RedeliveryChangesNothing | services/usage-meter/src/consumer/StreamConsumer.ts:5-7 | two delivery lists of the same events, in any order and with any repetition, leave the same rows up to order |
| UsageMetering.TenantsAreApart | services/usage-meter/src/consumer/StreamConsumer.ts:6 | what is stored of a tenant is what would be stored had only its own events been delivered, when tenant ids hold no colon |
| UsageMetering.KeyIsSharedIffColon | services/usage-meter/src/consumer/StreamConsumer.ts:6 | another tenant or key can have the same dedupe text if and only if a colon occurs in one of them |
| UsageRollups.RebuildRollup | services/usage-meter/src/rollups/HourlyRollup.ts:3 | one rollup per key of a billable event, in key order, with the sum and count of exactly that key's events; none when a quantity is unreadable |
| UsageRollups.RollupsConserve | services/usage-meter/src/rollups/HourlyRollup.ts:3 | for readable events the quantities of the rollups sum to those of all billable events, and their counts to how many there are |
| UsageRollups.RollupHoldsItsOwn | services/usage-meter/src/rollups/HourlyRollup.ts:3 | each rollup holds the sum and number of exactly the billable events of its own tenant, environment and meter, when ids hold no bar |
| UsageRollups.OneRollupEach | services/usage-meter/src/rollups/HourlyRollup.ts:3 | for each tenant, environment and meter with a billable event there is exactly one rollup, when ids hold no bar |
| UsageRollups.ReconcilesIff | services/usage-meter/src/reconciliation/RollupReconciler.ts:3 | any rollups reconcile with the raw events if and only if their quantities sum to the billable ones; there is no answer exactly when one of those is unreadable |
| UsageRollups.RebuiltReconciles | services/usage-meter/src/reconciliation/RollupReconciler.ts:3 | whatever can be rebuilt reconciles, also with nothing billable |
| UsageRollups.ChangedRollupIsFound | services/usage-meter/src/reconciliation/RollupReconciler.ts:3 | a rebuilt rollup with one quantity changed reconciles only if it was changed to itself |
| UsageRollups.RollupsIgnoreOrder | services/usage-meter/src/rollups/HourlyRollup.ts:3 | reordering the events gives the same rollups |
| UsageRollups.RedeliveredRollups | services/usage-meter/src/consumer/StreamConsumer.ts:5-7 | consumer and builder together: reordering and redelivering gives the same rollups |
| Migrations.MigrationRunner.Up | packages/db/src/migration-runner.ts:76-105 | one transaction either leaves the outcome of applying the files in order or changes nothing and reports the first drift or failing script |
| Migrations.MigrationRunner.GetPlan | packages/db/src/migration-runner.ts:68-74 | the plan is the files not applied, and the repeatable ones whose checksum changed, in order |
| Migrations.UpRunsThePlan | packages/db/src/migration-runner.ts:83-97 | up commits if and only if no versioned file has drifted and every planned script works, and then runs exactly the plan in order |
| Migrations.UpDriftsIff | packages/db/src/migration-runner.ts:84-99 | up fails with a drift if and only if status shows one on a versioned file and every script planned before the first of those works |
| Migrations.StatusTellsTheHistory | packages/db/src/migration-runner.ts:107-116 | after any runs status calls a file applied exactly when its script has taken effect, and drifted exactly when the last one that did had another checksum |
| Migrations.UpSettles | packages/db/src/migration-runner.ts:107-116 | after a committed run the plan is empty, status shows every file applied without drift, and running up again changes nothing |
| Migrations.VersionedRunsOnce | packages/db/src/migration-runner.ts:85-96 | over any runs with any file sets and failures a script that took effect twice is repeatable, and the ledger is the last execution of each script |
| Webhooks.BuildParseRoundTrip | packages/security/src/webhook/verify.ts:6-13 | parsing a built header returns its timestamp and its non-empty list of 64-digit hex signatures |
| Webhooks.ParseBuildParse | packages/security/src/webhook/sign.ts:10-17 | any accepted header means the same as the one rebuilt from it |
| Webhooks.HexEqualsIgnoresCase | packages/security/src/webhook/verify.ts:15-20 | signatures compare equal exactly when they agree up to letter case |
| Webhooks.VerifyWebhookSignature | packages/security/src/webhook/verify.ts:22-34 | the verdict of the exhaustive double loop is that of the first secret with a matching signature |
| Webhooks.FirstSigner | packages/security/src/webhook/verify.ts:28-32 | the reported index is the least whose secret has signed |
| Webhooks.DeliveryVerifies | packages/security/src/webhook/verify.ts:22-34 | an honest delivery, altered or not, is verified if and only if its timestamp is within the tolerance of the clock, it is unaltered and signed with a known secret, and the least such index is reported, when no known secret turns the received text into a sender's digest by accident |
| Webhooks.VerifiedIff | packages/security/src/webhook/verify.ts:22-34 | any readable header is verified under a secret if and only if its timestamp is within tolerance of the clock and that secret is the first whose digest is among its signatures |
| Webhooks.UnknownPartsMakeNoDifference | packages/security/src/webhook/verify.ts:7-10 | parts that are neither a timestamp nor a v1 signature change nothing, wherever they stand |
| FairDrain.TenantPartition.Enqueue | services/projection-worker/src/main/kotlin/pillar/projectionworker/config/TenantPartition.kt:3 | appends to the tenant's queue, creating it last in order when new |
| FairDrain.EnqueuedWork | services/projection-worker/src/main/kotlin/pillar/projectionworker/config/TenantPartition.kt:3 | enqueueing adds one item at the end of the tenant's own work and to nobody else's |
| FairDrain.TenantPartition.DrainRoundRobin | services/projection-worker/src/main/kotlin/pillar/projectionworker/config/TenantPartition.kt:3 | the nested loops terminate, run the specified log and leave every tenant in place with nothing queued |
| FairDrain.RunsEachOnceInOrder | services/projection-worker/src/main/kotlin/pillar/projectionworker/config/TenantPartition.kt:3 | every queued item of a tenant runs exactly once, in the order it was queued |
| FairDrain.Fair | services/projection-worker/src/main/kotlin/pillar/projectionworker/config/TenantPartition.kt:3 | whenever the drain is stopped no tenant is more than one item ahead of another that still had work |
| FairDrain.NewTenantsGoLast | services/projection-worker/src/main/kotlin/pillar/projectionworker/config/TenantPartition.kt:3 | tenants stand in the order they first enqueued work |
| FairDrain.PassTakesTurns | services/projection-worker/src/main/kotlin/pillar/projectionworker/config/TenantPartition.kt:3 | each pass serves the tenants with work left, once each and in that order |
| Onboarding.StepsNeverGoBack | services/onboarding/src/engine.ts:4 | whatever calls are made, the step of a session never goes back |
| Onboarding.CompletedHasTheWholeHistory | services/onboarding/src/steps/first-transfer.ts:2 | a completed session has the passed entry of all six steps and all recorded ids |
| Onboarding.NextKeepsInv | services/onboarding/src/steps/kyb.ts:2 | every call keeps the history of passed steps exact and moves at most one step on |
| Onboarding.PassesIff | services/onboarding/src/steps/kyb.ts:2 | a call passes the step a session is at if and only if it is for that step, KYB is approved without an outage, and the transfer is projected |
| Onboarding.OutOfTurnIsRefused | services/onboarding/src/engine.ts:4 | a call for another step is refused by naming the one that is due, and changes nothing |
| Onboarding.GivenIdsAreRecorded | services/onboarding/src/steps/first-transfer.ts:2 | ids brought by a call are the ids on record, and a transfer id once recorded stays unless another is brought |
| Onboarding.CanAlwaysComplete | services/onboarding/src/engine.ts:4 | however a session was held up, it can still be completed |
| Onboarding.HoldsAreAnnounced | services/onboarding/src/engine.ts:4 | a call emits the requires-action event exactly when it leaves the session held at the KYB step |
| Onboarding.CompletedOnce | services/onboarding/src/engine.ts:4 | the completed event is emitted exactly once by a completing run and never otherwise; afterwards nothing changes |

## Left out

- Liveness of the command queue: what can still happen to a request is decided (`CommandProgress`),
  not that a poller does get around to it.
- CommandPoller.CommandRequestRepository.ClaimPending: starts from the rows the SELECT returned,
  any distinct claimable rows; their `created_at` order, the rows skipped because locked and the
  fallback UPDATE without lease columns stay open.
- CommandPoller.CommandRequestRepository.EnsureCommandIdentity: finds an operation by its id; the
  enqueue writes the same value as `operation_id`, so the alternative match finds the same row.
- `operations.status` after a retry: the last writer wins; nothing is claimed about it.
- A handler that fails after its enqueue committed: the claim is then released and a retry may
  enqueue again, so "one operation per key" is not claimed. An ambiguous COMMIT of the enqueue is
  not modelled.
- The in-memory idempotency mode, expiry, the width of the advisory-lock key (contention is a
  choice of the environment), and the checks that decide whether a request takes part at all.
- The projection worker's loop is not in the repository; it is composed from `resume`,
  `advanceInTransaction` and `apply`, with ids for updates, and an effect's update and position
  as its id. Holdings and event projectors would add only easy members.
- SseDelivery.ResumeStartsAtTheNextEvent: for ids still in the ring and distinct ids; what happens with
  an id that is not there is `SseSubscribers.UnknownIdReplaysTheRing`.
- SseDelivery.MarkersMeanLoss: for a subscriber capacity of at least 1.
- The wake-up callback of a waiting subscriber, the database tailer that feeds the broker, HTTP
  framing and authentication. UTF-8 sequences split across chunks: the wire is modelled in characters.
- SseWire.ParserYieldsFields: states what this parser does; unlike section 9.2.6 of the WHATWG
  HTML Standard it concatenates data lines without a newline and trims values.
- Strings are sequences of Unicode scalar values; lone surrogates and their escapes do not occur.
  Numbers are held by the text JSON.stringify prints. Locale collation is any strict total order.
- CanonicalHash.RequestHashDecides: of the headers only the version header counts, as in the source; which of several
  spellings of its name wins is decided before the model starts.
- Floating-point rounding in the token buckets, the truncation of `resetAt` to whole milliseconds,
  and the Redis adapter. Rules stay fixed
  per key, keys are distinct within a call and the clock never goes backwards.
- UsageRollups.RollupsIgnoreOrder: for ids without `|`, the separator of rollup keys. Quantities
  are the integers BigInt reads; printing and re-reading a sum is the identity. The checksum text
  of a rollup repeats its key, quantity and count.
- Migration scripts are opaque; a script that edits the ledger table itself, and the dry run, are
  not modelled. Reading files and hashing them happens before the model starts.
- The overload of the header builder that takes pairs; it uses the first timestamp.
- FairDrain.TenantPartition.DrainRoundRobin: work that throws or enqueues more work while draining.
- Onboarding: the free-form inputs that steps copy into a session, and the API's own copy of the
  flow, which does not check the order of steps. Cancelled, failed and externally edited sessions
  do not arise from a fresh one.
- Cursor pagination: the cursor is compared as a raw id while the sort key differs, so no clean
  paging property holds.
- gRPC, JDBC, Redis and Fastify wiring, OAuth, storage, SDK clients, the CLI and the web
  applications; role tables, circuit breaker, retry delays, health and metrics.
