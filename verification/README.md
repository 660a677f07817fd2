# Order pipeline: a verified model

An order platform in TypeScript: an API that creates and changes orders, an outbox publisher, a worker that
consumes the published events, and around them idempotent requests, caches, rate limiting, refresh tokens and a
migration runner. This project models the stateful protocols of these programs in Dafny and proves what they keep
in every run: under crashes, rollbacks, timeouts, redeliveries, lost connections and arbitrary interleaving.

`dafny verify dfyconfig.toml` checks all of it.

## How it is built

Each protocol is a transition system: a `State`, a `Step` datatype, `Enabled`/`Apply`, an invariant that every
step keeps, and theorems about every reachable state. Postgres, Redis and RabbitMQ are small stores with the
atomic operations the programs use. Things that are over stay in the state (transactions, message copies, handler
activations, calls, readers), so a statement about a state speaks about the whole run that led to it, and what
excuses a guarantee is evidence in the state (`strayed`, `Misacked`, `overran`, `lost`, `spanning`), not a
restriction of the runs. Where a guarantee needs such an excuse, a concrete run shows what happens without it.

The programs themselves are imperative methods over these systems. `Do` takes one step of the caller; `Await`
lets an arbitrary schedule of everybody else's steps happen, as every `await` of the original does. A ghost log
keeps every step with the state it met, and `Own` picks out those of one request, poll, delivery or transaction:
the contracts say that these are exactly the steps of the program, for the states they met, and what it answers.
(The handlers of token rotation, the rate limit and the migration runner take their steps without interference.)

| file | what it holds |
|---|---|
| `Outbox`, `OutboxRows`, `OutboxPublisher`, `Drain`, `Backoff` | outbox table and poll transactions; what a row keeps for life; `pollOnce`; working off a backlog; rows that keep failing |
| `Delivery`, `DeliverySafety`, `Conservation`, `RetryBound`, `OneDelivery` | broker, claims and workers; what each step keeps; where every event is; how often it can fail; one delivery on its own |
| `Pipeline`, `PipelineSafety`, `LostEvents`, `Troubles`, `PipelineLimits`, `World`, `WorkerService` | both sides joined; the theorems; when events are lost, which troubles lose them, and a run for each; the shared world; `handleMessage` |
| `Idempotency`, `RetryRounds`, `IdempotencyKeys`, `IdempotentRequests` | the lease and its record; calls that find their record vanished again and again; headers and Redis keys; `withIdempotency` |
| `OrderAudit`, `PatchRequests` | row locks and trails; the PATCH handler |
| `EndToEnd`, `EndToEndSafety`, `CreateRequests` | idempotency, the creating transaction, audit trail and pipeline as one system; its theorems; `createOrderTransactionally` |
| `OrderListing`, `VersionedCache`, `CacheCoherence`, `FreshLists`, `CachedListing` | the SQL and the pages; the versioned caches; what their steps keep; requests after a write; `withListCache` with `withCountCache` inside |
| `UriEncoding`, `CacheKeys`, `EntityCache`, `FreshEntities`, `EntityReads` | the key strings; the entity cache and its timed guarantee; lookups after a delete; `withEntityCache` |
| `Migrations`, `MigrationFiles`, `VersionOrder` | the runner; its files; when their order is that of the versions |
| `TokenRotation`, `TokenRaces`, `RateLimit` | refresh tokens; refreshes that overlap; the rate limit |
| `Runs`, `Shared`, `Strings` | transition systems and their runs; status transitions and small common definitions |

## Assumptions

- The worker's queue is bound before the first publish: the publisher asserts the exchange only
  (packages/outbox-publisher/src/index.ts:113). `PipelineSafety.ConservedOnceBound` uses it, `PipelineLimits.UnboundPublishIsLost` shows why.
- An ack belongs to the channel that delivered the message. The worker reads the module-level `channel` when it
  acks (packages/worker-service/src/index.ts:244 and 264-296); after a reconnect the tag may mean another delivery.
  The model lets it, and marks the copy that suffers (`PipelineLimits.MisackedDelivery`).
- Redis keeps the namespace version key (`CacheCoherence.LostVersionServesStale`).
- A COMMIT that is reported failed did not take effect, or the order it made counts as the work of a processor that died.
- Ids are fresh, hashes are injective, JSON round trips are the identity.

## What the proofs brought to light

- An event can be lost for good although its order committed, by any one of six kinds of trouble and by nothing else
  (`PipelineLimits.LosesExactlyIfTroubled`): a publish confirmed before the queue was bound; a worker that dies while it
  holds the claim; a holder that times out and then fails; connections lost while a holder works and again after it
  failed; a DELETE that fails; an INSERT that takes effect but is reported failed. But for the first, the redelivered or
  retried copy is acknowledged as a duplicate, and a claim left behind blocks the event (`LostEvents.OrphanedForGood`).
  Event by event: `PipelineSafety.NoEventDropped`.
- A success under an Idempotency-Key is repeated by the next request if Redis fails to store it, if it is larger than
  64 KiB, or if the process dies between COMMIT and reply (`Idempotency.FailedStoreRunsTwice`,
  `Idempotency.LargeSuccessRunsTwice`, `EndToEndSafety.DeathAfterCommit`).
- The retry comment at packages/api-service/src/utils/idempotency.ts:108 says "exactly once"; a call can claim
  any number of times (`RetryRounds.NoBoundOnRounds`).
- The entity cache is keyed by the id as the client spelt it, while the database ignores the case of a UUID: an entry
  under another spelling outlives the delete of a PATCH (`EntityCache.OtherSpellingServesStale`).
- `occurred_at` of an audit row is the start of its transaction, so two PATCHes that wait for each other can leave a
  trail whose times contradict its order (`OrderAudit.ContendedOutOfOrder`).
- A body the schema accepts can have a total beyond the 32-bit column; the insert then fails
  (`CreateRequests.SchemaAllowsOverflow`).
- Two migration files may carry one version. The run that applies both leaves drift unless the checksums agree
  (`Migrations.DriftAfterSuccess`), and a run stopped between them, when resumed, never applies the second: resuming
  is exact if and only if the pending versions are unique (`Migrations.ResumesExactlyIfUnique`).
- Migrations apply in alphabetical order of their files, not "in version order" (scripts/migrate.mjs:5): without leading
  zeros the two agree exactly if no version is shorter than the one before it (`VersionOrder.LoadsInWidthOrder`; with
  leading zeros `VersionOrder.LoadsInVersionOrder`). Version 10 goes before version 9 (`VersionOrder.TenBeforeNine`).
- Redis rounds TTL to the nearest second, so `Retry-After` can end up to half a second before the window does
  (`RateLimit.RetryTooEarly`; exactly when: `RateLimit.RetryReachesLaterBucket`).
- Two overlapping refreshes of one token can fork its line (`TokenRaces.OverlapForks`; exactly when: `TokenRaces.WriteForks`).

## Model

| member | source | states |
|---|---|---|
| Outbox.InvStep | packages/outbox-publisher/src/index.ts:146-206 | whatever publishers and API transactions do, orders and outbox rows stay one to one, open polls hold disjoint unpublished rows, and a row is published by exactly one committed poll that had its confirm |
| Outbox.ExclusiveStep | packages/outbox-publisher/src/index.ts:150-159 | SKIP LOCKED exclusion: no step lets two open polls hold one row, and a row held by an open poll stays unpublished |
| Outbox.DuplicateAccounting | packages/outbox-publisher/src/index.ts:146-206 | confirmed publishes of a row: one if it is marked published, plus one for each rolled-back and each open poll that had it confirmed |
| OutboxRows.RowKeeps | packages/outbox-publisher/src/index.ts:146-197 | no step removes a row, changes its order or when it occurred, unpublishes it or takes back an attempt; only the COMMIT of a poll that locked it changes it |
| OutboxRows.RowAsCommitted | packages/outbox-publisher/src/index.ts:146-197 | in every run, the order and `occurred_at` of a row are those its one commit gave it |
| OutboxRows.SelectedExactly | packages/outbox-publisher/src/index.ts:150-159 | the answers the polling SELECT may give are just these: the oldest rows by `occurred_at`, at most a batch, of those unpublished, due and in no open poll, each once |
| OutboxPublisher.SelectDue | packages/outbox-publisher/src/index.ts:150-159 | the polling SELECT: due unlocked rows, oldest first, at most a batch, none passed over |
| OutboxPublisher.HandleRow | packages/outbox-publisher/src/index.ts:161-197 | one row: publish, then the UPDATE of the branch the publish asks for; a failed UPDATE ends the poll with the row untouched |
| OutboxPublisher.PollOnce | packages/outbox-publisher/src/index.ts:146-206 | with everybody else running before every publish, between it and its UPDATE, after the UPDATE and before the end, the poll takes exactly its own program: rows in order, one COMMIT that applies every mark or one ROLLBACK that applies none; a row it sent is published and otherwise as it was, a row it backed off has one attempt more and is due again the backoff after the poll began, and neither changes its order or `occurred_at` |
| Drain.PollGoesThrough | packages/outbox-publisher/src/index.ts:146-200 | the steps of a poll whose publishes all succeed (SELECT, then confirm and UPDATE for each row, then COMMIT) lead to all of its rows published and nothing else changed |
| Drain.DrainsInBatches | packages/outbox-publisher/src/index.ts:150-159 | with one publisher and all rows due, k such polls one after another empty the backlog if and only if k is at least its size divided by the batch, rounded up |
| Drain.DrainsInOrder | packages/outbox-publisher/src/index.ts:155-156 | across all these polls the rows are published once each, in the order of `occurred_at`, and they are exactly what left the backlog |
| Backoff.BackoffBounds | packages/outbox-publisher/src/index.ts:91-93 | the backoff never shrinks with the attempts and stays within 1 to 60 seconds |
| Backoff.TotalWaitClosed | packages/outbox-publisher/src/index.ts:91-93 | k failures in a row wait 2^(k+1) - 2 seconds for k up to 5, and 62 + 60 (k - 5) beyond |
| Backoff.FailuresSpreadOut | packages/outbox-publisher/src/index.ts:178-192 | in any run, a row's attempts count the committed polls that backed it off, and between the i-th and the j-th of them lie all the backoffs from one to the other |
| Backoff.DbReachable | packages/outbox-publisher/src/index.ts:178-192 | what holds of every run of the outbox holds of the outbox in every run of the whole pipeline |
| DeliverySafety.DeliveriesStep | packages/worker-service/src/index.ts:216-298 | every unacknowledged copy is the delivery of one unfinished handler on the current channel of a connected worker |
| DeliverySafety.ClaimsStep | packages/worker-service/src/index.ts:170-196 | every claim row belongs to one activation of its event, and an activation at work or done owns the row of its event |
| DeliverySafety.ClaimTrichotomy | packages/worker-service/src/index.ts:170-196 | a `processed_events` row exists if and only if the event has an active holder, was completed, or was left behind by an activation that is over, and never two of these |
| DeliverySafety.AtMostOneProcessed | packages/worker-service/src/index.ts:170-196 | two activations that hold the claim of one event or returned "processed" for it are the same |
| DeliverySafety.DeletesOwnClaim | packages/worker-service/src/index.ts:192-195 | the DELETE by event id removes the deleter's own row and no other |
| DeliverySafety.TagsStep | packages/worker-service/src/index.ts:244 | delivery tags stay unique on a channel |
| DeliverySafety.AckResolves | packages/worker-service/src/index.ts:244 | an ack has one meaning: its own delivery, or after a reconnect one other, or an unknown tag |
| DeliverySafety.StrayedExactly | packages/worker-service/src/index.ts:170-214 | just which steps leave a claim without its delivery |
| Conservation.DuplicateIsBacked | packages/worker-service/src/index.ts:179-181 | a copy acknowledged as a duplicate leaves the event with a holder whose delivery still stands, or processed |
| Conservation.ConservingStep | packages/worker-service/src/index.ts:216-298 | no step loses the last copy of an event unless it was acknowledged as processed or duplicate, or settled by an ack meant for another |
| Conservation.KeepingStep | packages/worker-service/src/index.ts:170-298 | no step drops an event unprocessed while no claim of it is held beyond its delivery |
| RetryBound.CountsFitStep | packages/worker-service/src/index.ts:268-296 | retry counts stay within 0 to maxRetries in the primary queue and 1 to maxRetries in the retry queue; every dead letter carries maxRetries + 1 |
| RetryBound.DeadStayDeadStep | packages/worker-service/src/index.ts:276-289 | no activation ever handles a dead letter |
| RetryBound.DeadLetterStays | packages/worker-service/src/index.ts:276-289 | a dead letter never moves or changes again |
| RetryBound.LineageFailures | packages/worker-service/src/index.ts:268-296 | a copy descends from one published message by exactly as many failures as its count says, at most maxRetries + 1, and all its ancestors are about its event |
| RetryBound.FailuresBounded | packages/worker-service/src/index.ts:263-298 | without redelivery, n messages cause at most (maxRetries + 1) n failures: the retry count is a termination measure |
| RetryBound.FailuresPerDelivery | packages/worker-service/src/index.ts:263-298 | with redelivery, still at most one replacement per delivery |
| OneDelivery.DeliveryAlone | packages/worker-service/src/index.ts:216-298 | the complete effect of an undisturbed delivery: duplicate acknowledged and nothing changed; or completed and acknowledged; or unclaimed again with one copy more, in the retry queue or, retries used up, among the dead letters |
| OneDelivery.DrainedShutdown | packages/worker-service/src/index.ts:358-375 | a worker that stops with nothing in flight puts no delivery back and changes no claim; a claim it leaves half done belongs to a handler that had timed out |
| PipelineSafety.InvStep | packages/worker-service/src/index.ts:123-298 | all invariants of both sides, and that they agree: every confirmed row was sent and every message is about an outbox row |
| PipelineSafety.MessageConservation | packages/outbox-publisher/src/index.ts:146-206 | in every run in which no ack hit another delivery: `published_at` implies a confirmed publish, and an event confirmed while the queue was bound has a copy in a queue or with a handler, or one acknowledged as processed or duplicate |
| PipelineSafety.NoEventDropped | packages/worker-service/src/index.ts:170-298 | in every run in which no claim of the event is held beyond its delivery, the event is unpublished, has a live copy, or was processed, however often work, UPDATE, polls and other workers fail |
| PipelineSafety.ProcessedAtMostOnce | packages/worker-service/src/index.ts:170-214 | over any run with crashes, timeouts whose original goes on, retries and redeliveries, at most one activation returns "processed" for an event |
| PipelineSafety.OneEventPerOrder | packages/api-service/src/routes/orders.routes.ts:256-284 | every committed order has exactly one outbox row |
| PipelineSafety.PublishesCounted | packages/outbox-publisher/src/index.ts:146-206 | the accounting of duplicates, in every reachable state of the whole pipeline |
| PipelineSafety.BoundBeforePublish | packages/worker-service/src/index.ts:145-147 | once the queue is bound it stays so, and every publish confirmed from then on is routed |
| PipelineSafety.ConservedOnceBound | packages/worker-service/src/index.ts:145-147 | from a state with the queue bound and nothing confirmed yet, after any steps, a published row has a copy in a queue or with a handler or one acknowledged as processed or duplicate, unless an ack hit another delivery |
| LostEvents.NothingLostWhenCalm | packages/worker-service/src/index.ts:170-298 | in every run without crash, lost connection, processing timeout, failed DELETE or INSERT applied but reported failed, no event is dropped: it is unpublished, has a live copy, or was processed, however often work, UPDATEs and polls fail |
| LostEvents.CalmStep | packages/worker-service/src/index.ts:216-298 | why: every handler that is not finished keeps its delivery on the current channel, and every ack means its own |
| LostEvents.OrphanedForGood | packages/worker-service/src/index.ts:170-181 | an event whose claim row was left behind was never processed and is not in any continuation of the run |
| LostEvents.OrphanedStays | packages/worker-service/src/index.ts:192-195 | no step removes or completes a claim row that was left behind |
| Troubles.NothingLost | packages/worker-service/src/index.ts:123-298 | in every run in which the queue is bound before a publish is confirmed, and without the five other kinds of trouble, an event is unpublished, or has a copy in a queue or with a handler, or was processed |
| Troubles.MeetingReaches | packages/worker-service/src/index.ts:123-298 | the runs that meet only some kinds of trouble are runs of the pipeline |
| Troubles.LostForGood | packages/worker-service/src/index.ts:170-298 | a published event without copies, whose activations are all over without having processed it, is never sent, delivered or processed again in any continuation |
| PipelineLimits.LosesExactlyIfTroubled | packages/worker-service/src/index.ts:123-298 | for every set of kinds of trouble: some run that meets no others loses an event for good if and only if the set is not empty |
| PipelineLimits.UnboundPublishIsLost | packages/outbox-publisher/src/index.ts:113 | a confirmed publish before any worker bound the queue loses the event |
| PipelineLimits.CrashWhileHolding | packages/worker-service/src/index.ts:170-181 | a crash between claim and completion: the redelivered message is acknowledged as a duplicate, the event never processed |
| PipelineLimits.TimedOutHolderFails | packages/worker-service/src/index.ts:192-214 | a timed-out holder that fails after its retry was acknowledged as a duplicate loses the event |
| PipelineLimits.FailedDelete | packages/worker-service/src/index.ts:192-195 | a DELETE that fails keeps the claim, and the retry ends as a duplicate |
| PipelineLimits.MisreportedInsert | packages/worker-service/src/index.ts:170-181 | an INSERT that takes effect but is reported failed leaves a claim nobody deletes, and the retry ends as a duplicate |
| PipelineLimits.LostConnections | packages/worker-service/src/index.ts:179-195 | with lost connections alone: the redelivered copy ends as a duplicate while the holder works, which then fails and, its channel gone again, cannot retry |
| PipelineLimits.MisackedDelivery | packages/worker-service/src/index.ts:244 | an ack written to a new channel settles a delivery that is not its own |
| World.UndisturbedStep | packages/outbox-publisher/src/index.ts:146-206 | a step of somebody else leaves an open poll its transaction and its locked rows, and a handler its progress unless its process dies, which crashes what was still running |
| WorkerService.ChooseAck | packages/worker-service/src/index.ts:244 | what `channel.ack` does is one enabled step: own tag, another delivery's, unknown, or no channel |
| WorkerService.RequeueOrDeadLetter | packages/worker-service/src/index.ts:263-298 | nothing without a channel; otherwise the replacement is sent first and the ack follows, unless the process dies in between |
| WorkerService.Race | packages/worker-service/src/index.ts:170-214 | `processEvent` raced against the timer: a prefix of its statements for the outcomes it meets, in order; it stops short only at the `timer`-th statement or when its process died |
| WorkerService.HandleMessage | packages/worker-service/src/index.ts:216-261 | among everybody else's steps the handler takes exactly: a prefix of the statements, then the ack or the retry branch their outcome asks for, or the retry branch if the timer fired first, which it does after exactly `timer` statements; it takes no such step only if its process died |
| WorkerService.Consume | packages/worker-service/src/index.ts:300-307 | the same for a whole delivery, from the moment the broker hands the copy over |
| Idempotency.InvStep | packages/api-service/src/utils/idempotency.ts:68-134 | every step keeps, for every key without an overrun or lost call: holders have their own unexpired claim, successes their record until it expires, records their writer |
| Idempotency.OneProcessorAtATime | packages/api-service/src/utils/idempotency.ts:92-104 | per key at most one processor runs at a time, and none while a success is on record |
| Idempotency.SuccessesApart | packages/api-service/src/utils/idempotency.ts:113-127 | a processor that holds the claim or succeeded under the key of an earlier success claimed it at least 86 400 seconds after that was stored |
| Idempotency.AnsweredFromRecord | packages/api-service/src/utils/idempotency.ts:159-206 | for 86 400 seconds after a success is stored every call of its key gets that response, or 409 on another hash, and runs nothing |
| Idempotency.AnsweredForADay | packages/api-service/src/utils/idempotency.ts:127 | the same over a run: from the SET on, whatever happens, until 24 hours later, no processor of the key runs and every other call is answered from the response |
| Idempotency.ClaimLastsAMinute | packages/api-service/src/utils/idempotency.ts:94-100 | a holder has overrun its claim exactly if it took it 60 seconds ago or more |
| Idempotency.LostAndOverrun | packages/api-service/src/utils/idempotency.ts:113-133 | just which steps make a success count as lost and a claim as overrun |
| Idempotency.SizeLimit | packages/api-service/src/utils/idempotency.ts:122-127 | a success whose record has at most 65 536 bytes is stored, one of 65 537 or more is not |
| Idempotency.AnsweredInProgress | packages/api-service/src/utils/idempotency.ts:180-200 | while a processor runs every other call of its key gets 409: in progress on the same hash, conflict on another |
| Idempotency.ReplaysAreRecorded | packages/api-service/src/utils/idempotency.ts:202-205 | every replayed response was recorded by a call with this key and hash |
| Idempotency.OverrunOverlaps | packages/api-service/src/utils/idempotency.ts:94-100 | a processor that outlives its claim runs beside a second one |
| Idempotency.FailedStoreRunsTwice | packages/api-service/src/utils/idempotency.ts:127-133 | a success Redis fails to store is released, and runs again |
| Idempotency.LargeSuccessRunsTwice | packages/api-service/src/utils/idempotency.ts:122-126 | a success beyond the size limit is not kept, and runs again |
| RetryRounds.NoBoundOnRounds | packages/api-service/src/utils/idempotency.ts:103-110 | for every n some run has one call issue SET NX n times and be claiming still, with no time passing |
| IdempotentRequests.Requests.TryClaim | packages/api-service/src/utils/idempotency.ts:92-104 | SET NX, after whatever others did: the processor runs exactly if no record was visible to it; otherwise the record is read; a failed call is reported |
| IdempotentRequests.Requests.ReadExistingRecord | packages/api-service/src/utils/idempotency.ts:159-206 | the answer that the record GET saw calls for (conflict on another hash, else in progress or the stored response), or back to claiming if it vanished |
| IdempotentRequests.Requests.RunProcessor | packages/api-service/src/utils/idempotency.ts:113-133 | the processor, then the SET, or DEL for a result over 65 536 bytes, or DEL after a failure, in exactly these steps; the caller gets its own result or its error; a result that could be stored is on record for 86 400 seconds from that moment, and one too large leaves nothing under the key |
| IdempotentRequests.Requests.WithIdempotency | packages/api-service/src/utils/idempotency.ts:68-134 | no header runs the processor bare, a malformed one is 400 with nothing touched; under a valid one the call's own steps are exactly the program for the states they met: SET NX each round, the processor if and only if one of them found no visible record, otherwise the answer of the record GET saw |
| IdempotentRequests.Requests.Attempt | packages/api-service/src/utils/idempotency.ts:92-134 | the same from the claim on, one recursion for each time the record vanished |
| IdempotencyKeys.RedisKeysDistinct | packages/api-service/src/utils/idempotency.ts:155-157 | scopes, users and valid keys never share a Redis key |
| IdempotencyKeys.KeysAre | packages/api-service/src/utils/idempotency.ts:18 | a key is 8 to 128 characters from the URL-safe alphabet of 64, character by character; a UUID is one |
| OrderAudit.InvStep | packages/api-service/src/routes/orders.routes.ts:148-296 | every step keeps every trail a path that ends at the order's status, and every lock holder's view current |
| OrderAudit.AuditTrail | packages/api-service/src/routes/orders.routes.ts:197-215 | the trail runs from NULL to pending along allowed edges to the current status, replaying it rebuilds that status, it holds at most three changes, nothing follows a terminal status, and only the owner acted |
| OrderAudit.LockedReadIsCurrent | packages/api-service/src/routes/orders.routes.ts:167-171 | what a PATCH reads FOR UPDATE is still there when it writes, and nobody else holds the lock |
| OrderAudit.OwnerNeverChanges | packages/api-service/src/routes/orders.routes.ts:201-207 | no step removes an order or changes its owner |
| OrderAudit.TrailInTimeOrder | infra/postgres/migrations/004_order_events.sql:27 | `occurred_at` follows the trail as long as no PATCH of the order began before an earlier writer had committed |
| OrderAudit.ContendedExactly | packages/api-service/src/routes/orders.routes.ts:148-240 | a change makes its order count as contended exactly if another change or the creation was committed since its PATCH began |
| OrderAudit.ContendedOutOfOrder | infra/postgres/migrations/004_order_events.sql:27 | otherwise it can contradict the trail |
| Shared.StatusesClimb | packages/shared/src/index.ts:10-16 | every chain of real status changes climbs, never comes back, never leaves a terminal status, and has at most three links |
| Shared.AllowedPairs | packages/shared/src/index.ts:10-24 | exactly five changes are allowed besides staying, and a terminal status is one without a way on |
| PatchRequests.Orders.PatchOrder | packages/api-service/src/routes/orders.routes.ts:148-240 | the handler's own steps are exactly the program for the row its lock showed. The answer: 404 exactly to everybody but the owner of an existing order; 422 exactly to the owner who asks for a change that does not exist, with the present status and just the statuses it may go to; otherwise, unless a statement failed, the order with the status asked for, committed unwritten if it has it already. It waits only for a lock others hold; refusals and failures roll back; a change commits status and audit row together; the caches are invalidated exactly on a change |
| CreateRequests.TotalCents | packages/api-service/src/routes/orders.routes.ts:249-252 | the loop computes the sum of quantity times unit price |
| CreateRequests.Shop.CreateOrder | packages/api-service/src/routes/orders.routes.ts:243-296 | among everybody else's steps the transaction takes exactly its program: three INSERTs, COMMIT and the bump, or ROLLBACK at the first failure; it succeeds exactly if no statement fails and the total is at most 2 147 483 647; then order, audit row and outbox row are visible with the values given, and the version of the order list is one higher if the bump worked; otherwise none is visible |
| CreateRequests.SchemaAllowsOverflow | packages/api-service/src/schemas/order.schemas.ts:6-15 | a valid body can exceed the total's column, 2 147 483 647 |
| EndToEndSafety.InvStep | packages/api-service/src/routes/orders.routes.ts:64-75 | each part stays a reachable state of its own system, and calls, creating transactions, orders, audit rows, outbox rows and results stay linked |
| EndToEndSafety.OneOrderPerKey | packages/api-service/src/routes/orders.routes.ts:64-75 | two orders made under one key were claimed more than 24 hours apart, if no processor of the key outlived its claim, lost its success or died after its COMMIT |
| EndToEndSafety.TogetherOrNotAtAll | packages/api-service/src/routes/orders.routes.ts:259-287 | in every reachable state, wherever a creating transaction stands, failed or died, its order, its trail and its outbox row are visible together, exactly if it has committed |
| EndToEndSafety.CommitIsPossible | packages/api-service/src/routes/orders.routes.ts:287 | nothing others do can keep a transaction that has inserted its three rows from committing |
| EndToEndSafety.OrderIsTheUsers | packages/api-service/src/routes/orders.routes.ts:64-75 | the order made under a key belongs to the user of that key: the id in the key, read as a number, is its user |
| EndToEndSafety.OrderArtifacts | packages/api-service/src/routes/orders.routes.ts:243-296 | whatever repeats or fails, a committed order has a trail that begins with its user's creation, at the start of the transaction, and no other "created" row, exactly one outbox row, with its `occurred_at`, and at most one activation that ever processed its event |
| EndToEndSafety.RepliesNameTheOrder | packages/api-service/src/routes/orders.routes.ts:64-75 | every successful reply under a key, first or replayed, is a 201 whose body, read as an id, is that of the order which a call with this key and hash made |
| EndToEndSafety.DeathAfterCommit | packages/api-service/src/utils/idempotency.ts:113-127 | whenever a process dies between COMMIT and reply, the next call with the key runs its processor and may begin a second transaction once the claim has expired |
| Idempotency.DeadHolderExpires | packages/api-service/src/utils/idempotency.ts:94-100 | a holder that dies leaves its claim to expire after 60 seconds; then whoever asks next runs the processor |
| OrderListing.BuildWhere | packages/api-service/src/routes/orders.routes.ts:301-319 | for every combination of filters the clauses and parameters pushed select exactly the rows the filters mean, each `$n` its own value |
| OrderListing.BuildQueries | packages/api-service/src/routes/orders.routes.ts:321-354 | the page query returns the page of matching rows and the count query their number, on every table |
| OrderListing.PagesTile | packages/api-service/src/utils/pagination.ts:48-58 | pages 1 to totalPages, one after another, are all matching rows, each once and in order |
| OrderListing.HasNextExact | packages/api-service/src/utils/pagination.ts:48-58 | hasNext holds exactly if the next page is not empty |
| OrderListing.MatchingExact | packages/api-service/src/routes/orders.routes.ts:301-319 | a row is listed exactly if it is in the table, the user's, and passes every filter given: status, address whatever its case, both dates with their bounds included |
| OrderListing.CaseInsensitive | packages/api-service/src/routes/orders.routes.ts:307-310 | the case of the address asked for makes no difference |
| OrderListing.MetaExact | packages/api-service/src/utils/pagination.ts:48-58 | the metadata: own page and size, the number of matching rows, just as many pages as they fill, and a page before exactly if a smaller page number is valid |
| OrderListing.NormalMatching | packages/api-service/src/routes/orders.routes.ts:326-332 | the filter the count cache is keyed by selects the same rows |
| CacheCoherence.InvStep | packages/api-service/src/utils/cache.ts:57-164 | every step keeps: what is stored under version k, or gathered by a reader that took it, was read no earlier than the k-th bump |
| CacheCoherence.ListCoherence | packages/api-service/src/utils/cache.ts:117-164 | a response contains rows and a total that are true of database states no older than any write whose bump came before the request, over all interleavings, late stores, evictions and failed calls |
| CacheCoherence.EntriesAreFresh | packages/api-service/src/utils/cache.ts:269-312 | the same of every list and count entry, with the count read under a later version than the list |
| FreshLists.RequestSeesWrite | packages/api-service/src/utils/cache.ts:57-164 | over every run: a request that arrives after the bump of a write gets rows and a total that were true at that write or since, as long as the version key is kept |
| CacheCoherence.LostVersionServesStale | packages/api-service/src/utils/cache.ts:57-71 | if the version key is lost after a bump, a page from before the write is served again |
| CachedListing.Listing.WithCountCache | packages/api-service/src/utils/cache.ts:269-312 | its own steps are exactly the program: an entry visible under the version read is the total; otherwise the database counts, and the count is stored if the cache reads worked |
| CachedListing.Listing.WithListCache | packages/api-service/src/utils/cache.ts:117-164 | its own steps are exactly the program: an entry visible under the version read is the answer, with HIT; otherwise the page is what the two queries found, stored under its own query and version with MISS, or not stored and without the header if a cache call failed or the cache is off |
| UriEncoding.RoundTrip | packages/api-service/src/utils/cache.ts:381 | percent-decoding (section 2.1 of RFC 3986) and UTF-8 decoding give back every code point of an encoded value |
| UriEncoding.EncodePlain | packages/api-service/src/utils/cache.ts:381 | an encoded value holds no `:` and no `=` |
| UriEncoding.KeptExactly | packages/api-service/src/utils/cache.ts:381 | letters, digits and nine marks are left as they are, and no other character is |
| CacheKeys.ListKeyExact | packages/api-service/src/utils/cache.ts:373-385 | two list keys are equal if and only if the versions are and the records show the same strings under the same names, `*` for a missing one |
| CacheKeys.CountKeyExact | packages/api-service/src/utils/cache.ts:392-404 | the same for count keys |
| CacheKeys.KeysPermuted | packages/api-service/src/utils/cache.ts:378 | the order of the fields makes no difference |
| CacheKeys.ListKeysDistinct | packages/api-service/src/routes/orders.routes.ts:132-143 | on valid queries equal list keys mean the same version, user, page and filters, so users never see each other's pages |
| CacheKeys.CountKeysDistinct | packages/api-service/src/routes/orders.routes.ts:326-332 | on valid queries equal count keys mean the same version and filter, but for the case of the address |
| CacheKeys.StarIsMissing | packages/api-service/src/utils/cache.ts:381 | no valid value is the bare `*` |
| CacheKeys.FamiliesDisjoint | packages/api-service/src/utils/cache.ts:80-82 | list, count, entity, version, idempotency, rate and login keys never collide |
| EntityCache.InvStep | packages/api-service/src/utils/cache.ts:193-238 | every step keeps: entries are what their reader fetched, and after a delete nothing older than its write can be served unless a reader spanned the delete |
| EntityCache.HitIsRecent | packages/api-service/src/utils/cache.ts:193-238 | if sets land within D of their fetch, a hit returns what the row was at some moment less than TTL + D before |
| EntityCache.HitSeesWrite | packages/api-service/src/utils/cache.ts:342-358 | a hit after the delete of a PATCH is at least as new as it, if no reader whose fetch and set lie on either side of the delete set its row |
| FreshEntities.LookUpSeesWrite | packages/api-service/src/utils/cache.ts:193-238 | over every run: a lookup after the delete of a PATCH that hits is at least as new, if no reader that held an older version at the delete sets it in between |
| EntityCache.ChangeIsNewest | packages/api-service/src/routes/orders.routes.ts:197-207 | a PATCH adds a version, current from then on, with the status asked for and the same owner, and changes no older one |
| EntityCache.OwnerCheckExact | packages/api-service/src/routes/orders.routes.ts:107-115 | the owner check after the cache admits exactly the present owner, even on a stale entry |
| EntityCache.SpanningSetServesStale | packages/api-service/src/utils/cache.ts:221-237 | a set that lands after the delete makes the next hit older than the write |
| EntityCache.OtherSpellingServesStale | packages/api-service/src/routes/orders.routes.ts:41-43 | an entry under another spelling of the id survives the delete |
| EntityReads.Reads.WithEntityCache | packages/api-service/src/utils/cache.ts:193-238 | its own steps are exactly the program: a visible entry is the answer, with HIT; otherwise the row as the database has it, stored for a TTL from then with MISS; no row is found only if there was none when the database was asked |
| EntityReads.Reads.GetOrder | packages/api-service/src/routes/orders.routes.ts:79-116 | 404 if there was no row when the database was asked, and otherwise exactly to everybody but the present owner; the owner gets, on a miss, the newest row as the database had it when asked, and on a hit a row that was current less than the TTL and the longest delay of a set ago |
| Migrations.Runner.ApplyMigrations | scripts/migrate.mjs:96-159 | drift, nothing to do and up to date change nothing; otherwise a prefix of the pending migrations is applied, each whole, and success means all of them; a failed run names the migration whose SQL fails |
| Migrations.ResumeRefines | scripts/migrate.mjs:125-153 | with unique pending versions, runs that failed or died anywhere make no difference to where a later complete run ends |
| Migrations.ResumesExactlyIfUnique | scripts/migrate.mjs:125-153 | stopped runs make no difference to any effect, seen through a schema that remembers all SQL, if and only if no two pending files share a version |
| Migrations.StopBetweenDuplicates | scripts/migrate.mjs:125-153 | after a stop between two pending files of one version the second is never applied |
| Migrations.StopsLeaveNoDrift | scripts/migrate.mjs:110-123 | if pending files of one version have one checksum, wherever runs were stopped, the next one gets past the drift check |
| Migrations.NoDriftExactlyIfConsistent | scripts/migrate.mjs:110-123 | the drift check never stops the next run, wherever runs were stopped, if and only if pending files of one version have one checksum |
| Migrations.NothingLeft | scripts/migrate.mjs:125-130 | after a complete run nothing is pending, and a further run changes nothing |
| Migrations.EachOnce | scripts/migrate.mjs:134-153 | every pending migration takes effect exactly once, in order, and nothing else does |
| Migrations.DriftMeans | scripts/migrate.mjs:110-123 | drift is a file whose version is on record with another checksum |
| Migrations.PendingCounts | scripts/migrate.mjs:125 | pending is every file whose version is not on record, as often as it is there |
| Migrations.PendingInOrder | scripts/migrate.mjs:125 | pending migrations keep the order of the files |
| Migrations.DriftAfterSuccess | scripts/migrate.mjs:110-123 | the run after a successful one is free of drift if and only if files of one version have one checksum |
| Migrations.DuplicatesBreakResume | scripts/migrate.mjs:125-153 | with a version twice, a resumed run applies less than an uninterrupted one |
| MigrationFiles.LoadMigrationFiles | scripts/migrate.mjs:43-77 | one migration for each file whose name has the form, in alphabetical order of the names, and no others; none twice; each with the version and description its name spells, the content of its file and the checksum of that content |
| MigrationFiles.NameForm | scripts/migrate.mjs:60-64 | loaded are exactly the names made of digits, an underscore, a text on one line and `.sql` |
| VersionOrder.LoadsInVersionOrder | scripts/migrate.mjs:56 | the migrations loaded are in the order of their version numbers if and only if each version is no longer than the next, or its excess digits are zeros and the rest is alphabetically no later |
| VersionOrder.LoadsInWidthOrder | scripts/migrate.mjs:56 | without leading zeros: if and only if no version is shorter than the one before it |
| VersionOrder.PairInOrder | scripts/migrate.mjs:56 | the same of any two files in alphabetical order |
| VersionOrder.TenBeforeNine | scripts/migrate.mjs:56 | version 10 goes before version 9 |
| TokenRotation.DeadStaysDead | packages/api-service/src/routes/auth.routes.ts:177-230 | a revoked or expired token is never live again |
| TokenRotation.OneLiveDescendant | packages/api-service/src/routes/auth.routes.ts:215-217 | of all tokens that go back to one login at most one is unrevoked |
| TokenRotation.RotatedAtMostOnce | packages/api-service/src/routes/auth.routes.ts:215-217 | a token is exchanged at most once, and is revoked by then |
| TokenRotation.RefreshSucceeds | packages/api-service/src/routes/auth.routes.ts:199-217 | a refresh yields a new token exactly if the one presented is live and the new one can be stored; the one presented is dead afterwards either way, and no token of its line is live but the new one |
| TokenRotation.LivesForTtl | packages/api-service/src/routes/auth.routes.ts:31-38 | over every run: a token issued at some moment is answered 401 by every refresh from `ttl` later on; before, unless revoked, it is exchanged for one that lives for `ttl` from then |
| TokenRotation.ReuseRevokesAll | packages/api-service/src/routes/auth.routes.ts:205-213 | an exchanged token that turns up again before it expires leaves its user no live token, and touches nobody else's |
| TokenRaces.WriteForks | packages/api-service/src/routes/auth.routes.ts:184-217 | what a refresh does about the verdict it read some time ago keeps one unrevoked token per login if and only if it does not replace a token revoked meanwhile whose line goes on in another unrevoked one |
| TokenRaces.InTimeIsSafe | packages/api-service/src/routes/auth.routes.ts:184-217 | however refreshes overlap, if every write finds the token it replaces still unrevoked, at most one token of each login is unrevoked |
| TokenRaces.OverlapForks | packages/api-service/src/routes/auth.routes.ts:184-217 | two overlapping refreshes of one token leave two live tokens of one login |
| TokenRotation.TokenService.RefreshToken | packages/api-service/src/routes/auth.routes.ts:177-218 | which of the four answers is given, and what each does to every token; the token issued is the user's and expires after `ttl` |
| TokenRotation.TokenService.CreateTokens | packages/api-service/src/routes/auth.routes.ts:18-42 | a login or registration adds one valid token, the root of a new line, which expires after `ttl`, and changes no other |
| TokenRotation.TokenService.LogOut | packages/api-service/src/routes/auth.routes.ts:220-230 | the token presented is dead, every other token as it was |
| RateLimit.AdmittedPerBucket | packages/api-service/src/middleware/rate-limit.ts:19-36 | in each bucket exactly the first `limit` requests of a client are admitted: EXPIRE never resets a counter within its bucket |
| RateLimit.AdmittedPerSpan | packages/api-service/src/middleware/rate-limit.ts:19-36 | at most twice the limit in any span of one window |
| RateLimit.RetryReachesLaterBucket | packages/api-service/src/middleware/rate-limit.ts:30-38 | the counter expires a window after the client's first request in the bucket; waiting Retry-After leaves the client in the bucket exactly if that leaves at least half a second and TTL rounds it down by more than how far into the bucket that request came; half a second more is always enough |
| RateLimit.RetryTooEarly | packages/api-service/src/middleware/rate-limit.ts:30-38 | a client that waits as told can still be in its bucket |
| RateLimit.TwiceTheLimit | packages/api-service/src/middleware/rate-limit.ts:19-28 | twice the limit is attained |
| RateLimit.Limiter.Enforce | packages/api-service/src/middleware/rate-limit.ts:19-45 | admission and the remaining count are those of the client's earlier requests in this bucket |

## Left out

- Routing, schemas, CORS, logging, metrics, health routes, configuration and deployment files: no hard property.
- Password hashing, JWT, SHA-256, JSON and UUIDs: opaque.
- Login failures, account lock and registration: counters with simple bounds only.
- IdempotentRequests.Requests.WithIdempotency: the number of rounds is bounded by `rounds`, where the original recurs without a bound; a call that has used them up is still claiming.
- OutboxPublisher.PollOnce: a publish that fails and the UPDATE that backs its row off are one step; nobody sees that UPDATE before the COMMIT.
- PatchRequests.Orders.PatchOrder: the UPDATE and the INSERT of its audit row are one step; nobody sees either before the COMMIT.
- CachedListing.Listing.WithListCache: of the two parallel queries one is over before the other begins.
- EndToEndSafety.RepliesNameTheOrder: a response body is the id of its order.
- Idempotency: a stored record that is not valid JSON, and a header given more than once, do not arise.
- Messages that are not `order.created` events of this outbox, unparseable ones, and foreign `x-retry-count` values: not modelled; a message starts without a count.
- WorkerService.HandleMessage: the statements of `processEvent` that go on after the timer fired are steps of the pipeline, not of this method.
- Prefetch, routing keys and queue arguments: any worker may take any queued copy, in any order.
- Reconnecting: `Connect` may happen or not; that a worker ever consumes again is not claimed, since `reconnectLoop` stops once the channel is set even if consuming failed.
- `schedulePoll`, the publisher's `shutdown` and the gauges: polls may begin at any time.
- The 30-second limit of the worker's drain: `OneDelivery.DrainedShutdown` is about a drain that ends with nothing in flight; any other end is a crash of the model.
- OrderListing.BuildQueries: ORDER BY is the order of the table; rows with equal `created_at` have one fixed order for all pages, and e-mail addresses are lowered as ASCII.
- OrderListing: an address or timestamp is its text together with what it denotes; parsing timestamps is not modelled.
- CacheKeys.ListKeysDistinct: page numbers print in decimal, as safe integers do.
- TokenRotation.TokenService.RefreshToken: handlers do not overlap (they do in `TokenRaces`); access tokens are not modelled.
- RateLimit: clock read, INCR and EXPIRE are one step and Redis does not fail (the hook then admits everybody).
- Migrations: one runner at a time; a migration's effect depends on its SQL and the schema only.
- The API's counter of active requests: it is decremented for requests it never counted, so it does not mean what it says.
