# Payment pipeline, amount pool and refresh tokens in Dafny

This project models the parts of the payment service in which several processes, two stores
and unreliable calls between them have to agree, and proves what holds in every run.

* **SMS to payment.** A webhook stores an SMS together with an outbox row. Relays claim rows,
  publish them to a Redis stream or to the dead-letter stream, and write the results back.
  Workers read the stream through a consumer group, match the payment by its exact amount,
  link it to an intent and release the amount. An administrator replays dead letters.
* **The amount pool.** Three Redis sets stand beside the partial unique index on PENDING
  intents: allocation, compensation, the Postgres fallback, release, and the rebuild when the
  application starts.
* **Retry and drain arithmetic.** The outbox bound of 5, the worker's delivery counts and
  bound of 3, batch and window limits, and termination measures for both loops.
* **Refresh-token families.** Rotation, replay detection and the 30-second cache of answers,
  as in section 4.14.2 of RFC 9700.

There are two levels. The classes (`OutboxRelay.Relay`, `Streams.ConsumerGroup`,
`WorkerLoop.Worker`, `Payments.PaymentHandler`, `Orders.OrderService`, `Webhook.Intake`,
`Startup.Application`, `DeadLetters.DeadLetterQueue`, `RefreshTokens.AuthService`) have the
loops, branches and field updates of the code; what a call does from start to end is proved
of them, for every pattern of errors given as a parameter. The module `Pipeline` cuts the same
functions into single transactions and single Redis commands and lets any number of relays,
workers, order requests and replays interleave, with a crash possible after every step; the
modules `Pipeline*` prove inductive invariants of that state machine and, from them, the
theorems about whole runs in `PipelineSafety`, `PipelineRefinement` and `PipelineBurial`. The two
levels are tied together in `PipelineSequential`, `PipelineDelivery` and `PipelineMessage`: the
small steps, taken without interruption, are the pass, the attempt, the handler call and the
handling of a message that the classes perform.

What the proofs show to be false of the code has its concrete run or its exact condition, and
where a run alone would leave the question open, both:

* A restart leaves no amount in two hands exactly when no amount that a request or a worker holds
  is in `amounts` (`PipelineOwners.RestartExact`); a run in which it does not is
  `PipelineSafety.BusyRestartBreaksSingleOwnership`.
* An order created through the Postgres fallback leaves no amount in two hands exactly when its
  amount is neither free nor held when it commits (`PipelineOwners.FallbackExact`). Two runs in
  which it does not are `PipelineSafety.FallbackBreaksSingleOwnership` and, with an amount outside
  the seeded range, `PipelineSafety.FallbackOutsideRangeBreaksSingleOwnership`.
* No other step can do so: a run never has an amount in two hands exactly when all its restarts
  and fallback commits meet these conditions (`PipelineSafety.SafeExactlyWhenSingle`).
* A paid life cycle returns its amount to the free set exactly when it was in `amounts` or
  `pending_orders` (`Amounts.PaidCycleReturns`), so the second payment of an amount removes it
  from the pool (`Amounts.SecondPaymentLosesAmount`).
* A stream drains exactly when no unacknowledged payload raises outside the handlers: one that
  does is never acknowledged and never dead-lettered (`WorkerDrain.StreamDrains`).
* Compensation undoes an allocation exactly when the amount was not already in
  `pending_orders` (`Amounts.UndoIsExact`).
* A retry of a refresh is answered exactly when the rotation's answer reached the cache and is
  read in time; otherwise an honest client loses its family (`RefreshRuns.RetryAfterRotation`,
  `RefreshRuns.LostAnswerKillsFamily`).
* A confirmation that fails leaves the amount of a PENDING intent free exactly when the SMOVE
  took effect without the commit, or the amount was free already (`Payments.FailedConfirmFrees`).

Reading of the code where it leaves room: the outbox error update is a bulk update by primary
key, as tests/integration/modules/order/test_outbox_relay.py:150 expects. A statement that
compares a column with a value of another type raises a driver error.

## Model

| member | source | states |
|---|---|---|
| `Webhook.NumbersAreRead` | app/modules/order/service.py:331-349 | a number printed in ASCII, Persian or Arabic-Indic digits with thousands separators is read back as itself |
| `Webhook.Intake.CreateTransaction` | app/modules/order/service.py:262-277 | an SMS with any of its five fields missing and one whose four columns are already stored are refused, each with its own error; otherwise exactly the new row is added, column by column |
| `Webhook.Intake.HandleTransaction` | app/modules/order/service.py:292-326 | which of the four answers is given, iff by iff; both rows are stored iff the SMS is complete and new and the commit took effect, otherwise neither, and stored SMS stay unique |
| `Webhook.StoringAccepts` | app/modules/order/service.py:292-312 | storing is exactly the step that opens the life of an SMS in the state machine |
| `Webhook.PostTwice` | app/modules/order/models.py:85-93 | two posts of one new SMS store it exactly once, even if the first was answered with an error |
| `Payload.AcceptedHasAmount` | app/modules/order/tasks.py:60-75 | the relay accepts exactly the dictionaries whose amount is a positive number, booleans excluded, and the worker then finds an amount; the converse fails for a negative amount |
| `Outbox.DecideBounds` | app/modules/order/tasks.py:78-152 | for every event: an answered write costs no retry and makes it PUBLISHED iff valid, FAILED iff not; one that raises costs exactly one and gives PENDING iff the count stays below 5, FAILED otherwise |
| `OutboxRelay.Relay.ClaimProcessEvents` | app/modules/order/tasks.py:19-57 | a row is claimed only if PENDING or PROCESSING for more than 300 seconds; the batch is as large as the limit allows and never younger than what it leaves behind; it returns snapshots and locks exactly its rows |
| `OutboxRelay.Relay.ProcessSingleOutboxEvent` | app/modules/order/tasks.py:78-152 | one Redis write at most, to the stream iff the payload is valid; PENDING iff the write raised and the new count is below 5, PUBLISHED iff it was answered and the payload valid, FAILED iff neither; the count grows by one iff it raised |
| `OutboxRelay.Relay.ProcessOutboxUpdates` | app/modules/order/tasks.py:155-196 | one statement for the published ids and one row at a time for the others: each row gets its own update, column by column, PUBLISHED ones keep their count, and no other row changes |
| `OutboxRelay.Relay.ProcessOutboxEvent` | app/modules/order/tasks.py:199-215 | one pass claims at most 100 rows and is a claim followed by the decisions; the two streams gain exactly the payloads whose write took effect, each where it belongs and in order |
| `OutboxDrain.PassEffect` | app/modules/order/tasks.py:199-215 | a pass leaves unclaimed rows alone and makes claimed ones terminal or PENDING with exactly one retry more; a short batch claims every PENDING row |
| `OutboxDrain.PassSpends` | app/modules/order/tasks.py:101-145 | every pass lowers the retry budget of the PENDING rows by at least the number it claims |
| `OutboxDrain.OutboxDrains` | app/modules/order/tasks.py:199-215 | N PENDING rows and batches of L are all terminal after floor(5N/L) + 5 passes, whichever Redis writes fail |
| `OutboxDrain.RowIsItsWrites` | app/modules/order/tasks.py:101-152 | over any number of passes a row that entered with no retry is PUBLISHED iff valid with an answered write, FAILED iff invalid with an answered write or after exactly five that raised, PENDING otherwise, and its count is the number that raised |
| `Streams.PartitionKept` | app/modules/order/queue_manager.py:31-117 | adding, delivering, claiming and acknowledging keep every id in exactly one of undelivered, pending and acknowledged |
| `Streams.ConsumerGroup.ReadMessages` | app/modules/order/queue_manager.py:87-110 | the next entries in order, with attempts 0, and nothing else, become pending with one delivery - also when the answer that carried them is lost |
| `Streams.ConsumerGroup.AcknowledgeMessage` | app/modules/order/queue_manager.py:113-117 | true iff the entry was pending; afterwards it is acknowledged, every other entry is as it was, and ids stay partitioned, whatever the reply |
| `Streams.ConsumerGroup.ClaimStaleMessage` | app/modules/order/queue_manager.py:140-159 | without an error exactly the pending entries idle long enough that fewer than `count` pending ones are ahead of are claimed, each handed out with the delivery count from before; an error at any of them leaves the claims made so far and loses their messages |
| `Streams.WindowIsLowest` | app/modules/order/queue_manager.py:140-143 | the window holds exactly the pending ids that fewer than n pending ids are ahead of |
| `WorkerLoop.Worker.ProcessMessage` | app/worker.py:44-71 | handled iff the type names a registered handler or there is a default, and the handler returned true or nothing or asked to ignore the message |
| `WorkerLoop.Worker.HandleFailure` | app/worker.py:74-97 | no error leaves it; a message leaves the pending list here only after max_retries deliveries and with its own data as the last dead letter, and no other message does |
| `WorkerLoop.Worker.ProcessOne` | app/worker.py:114-127 | whatever Redis answers, an entry is acknowledged only if it is this message and its handler succeeded or its own data has just become the last dead letter |
| `WorkerLoop.Worker.ProcessAll` | app/worker.py:130-142 | the loop is the one-message step applied in order up to the first exception that leaves it |
| `WorkerLoop.Worker.ProcessBatch` | app/worker.py:112-142 | a batch is the stale half followed, unless an error left it, by the new half, which reads at a later instant, with every claim, read, acknowledgement and dead-letter write free to fail |
| `WorkerDrain.BatchKeeps` | app/worker.py:112-142 | no batch, however it ends, adds work, takes an acknowledgement back, or acknowledges a payload that raises outside the handlers |
| `WorkerDrain.BatchProgress` | app/worker.py:112-142 | with Redis up the total of remaining handlings falls in every batch by at least the number of messages the batch takes up, whatever else is pending and despite its windows of ten |
| `WorkerDrain.WaitingRipens` | app/worker.py:113-130 | a batch that starts the idle time after another's read was answered finds every pending entry claimable, so it has work unless nothing is left |
| `WorkerDrain.GoodWithinIdleTime` | app/worker.py:152-160 | however fast the worker polls, every stretch of the idle time after a read with Redis up contains a round with work, until nothing is left |
| `WorkerDrain.StreamDrains` | app/worker.py:85-142 | after (max_retries + 1) rounds per entry that have something to take up, the stream is drained iff no unacknowledged payload raises outside the handlers |
| `WorkerHistory.AlwaysFailingMessage` | app/worker.py:85-97 | an always-failing message is handled with attempts 0 to max_retries, then buried exactly once with its own data and acknowledged |
| `WorkerHistory.AttemptsAreConsecutive` | app/modules/order/queue_manager.py:143-156 | the attempts of any entry are 0, 1, 2, ... without gaps, it stops at its first success, and it is buried iff its last attempt failed or it had no amount |
| `Amounts.DisjointKept` | app/modules/order/service.py:182-186 | allocation, compensation and release keep the free and the pending set apart |
| `Amounts.UndoIsExact` | app/modules/order/service.py:87-88 | compensating an allocation restores all three sets iff the amount was not pending before |
| `Amounts.PaidCycleReturns` | app/modules/order/handlers.py:20-22 | a paid life cycle returns its amount to the free set iff it was in `amounts` or `pending_orders`, and takes it out of both |
| `Amounts.SecondPaymentLosesAmount` | app/modules/order/handlers.py:20-22 | the first paid order takes its amount out of `amounts`, the second out of the pool altogether |
| `Orders.InsertKeepsIndex` | app/modules/order/models.py:62-69 | inserting a PENDING intent keeps exact amounts unique iff no PENDING intent has its amount; both new rows column by column, all others as they were |
| `Orders.OrderService.GetUniqueAmountFromPostgres` | app/modules/order/service.py:197-227 | none exactly when all of base+1..base+500 are pending; otherwise one of the window that is not |
| `Orders.OrderService.GetUniqueAmount` | app/modules/order/service.py:176-194 | a Redis amount leaves the free set and is reserved; a fallback amount is not pending; without an error nothing else changes, and after one all three sets are given exactly, with the amount that is lost |
| `Orders.OrderService.UndoAllocation` | app/modules/order/service.py:86-90 | both commands undo the allocation; what all three sets are and what is lost when either raises, applied or not |
| `Orders.OrderService.TryOnce` | app/modules/order/service.py:53-108 | what is allocated, and iff by iff which of the five outcomes follows: created iff an amount was given, no error struck and no rival has it; an attempt inserts both rows or none, and without Redis errors a failed one leaves the pool as it was |
| `Orders.OrderService.CreateOrderService` | app/modules/order/service.py:46-110 | at most max_retries attempts, all but the last ending in a fallback collision; created on the first one if Redis answers with unused amounts; tables gain the new rows on success and nothing on failure; a failed call without Redis errors leaves all three sets as they were; PENDING amounts stay unique |
| `Orders.FallbackRefusesLast` | app/modules/order/service.py:93-99 | a fallback collision refuses the order only when every allowed attempt has collided; no amount is answered iff the last attempt was given none |
| `Payments.MatchingSize` | app/modules/order/service.py:241-258 | under the index at most one PENDING intent matches an amount |
| `Payments.PaymentHandler.ProcessPendingPayment` | app/modules/order/service.py:230-260 | which of the seven outcomes occurs, iff by iff, and that only a match changes the session |
| `Payments.PaymentHandler.HandlePayment` | app/modules/order/handlers.py:12-47 | success implies that an intent carries the SMS afterwards; a payable SMS is acknowledged iff no error strikes; ignored iff there is nothing to pay; and error by error which rows and amounts have changed and that no others have |
| `Payments.PaymentHandler.HandlePendingPayment` | app/modules/admin/service.py:33-48 | confirmed iff a PENDING or FAILED intent of the order exists and no error strikes: it and its order become PAID, its amount leaves `pending_orders` for the free set, nothing else changes; not found changes nothing; an error rolls back the tables but not an SMOVE that took effect |
| `Payments.FailedConfirmFrees` | app/modules/admin/router.py:48-60 | a failed confirmation leaves the amount of a still PENDING intent free iff it was free, or was pending and the SMOVE took effect without a commit |
| `Payments.RedundantIsHarmless` | app/modules/order/service.py:234-239 | delivering an already linked SMS changes nothing and is acknowledged unless an error strikes |
| `Payments.RepeatsDoNotMatter` | app/modules/order/handlers.py:18-27 | for whole handler calls one after another: removing every later delivery of a linked SMS leaves the final orders, intents and sets unchanged |
| `Payments.LinkIsPermanent` | app/modules/order/service.py:245-250 | no later event changes an intent that has been paid by an SMS |
| `Payments.PaysAtMostOnce` | app/modules/order/service.py:234-239 | in any run an SMS is linked at most once |
| `PipelineRelay.RelayInvKept` | app/modules/order/tasks.py:26-196 | rows, claimed snapshots and computed updates stay sound and below the bound under every step |
| `PipelineStream.StreamInvKept` | app/modules/order/queue_manager.py:71-117 | every step keeps the partition of stream ids and what a worker holds consistent with the stream |
| `PipelineStream.PayloadInvKept` | app/modules/order/service.py:292-304 | every payload in rows, snapshots, stream, dead letters and replays stays the one its SMS was stored with |
| `PipelineMatch.MatchInvKept` | app/modules/order/service.py:230-260 | every step keeps links correct and unique and row locks and flushed keys exclusive |
| `PipelineMatch.IndexInvKept` | app/modules/order/models.py:62-69 | every step keeps PENDING amounts unique, counting rows that are flushed but not committed |
| `PipelineCover.CoverInvKept` | app/worker.py:74-142 | every step keeps each published payload covered by something that can still be worked on or by its outcome, and each acknowledged entry justified: its SMS is linked, or its own select matched nothing, or it has a dead-letter copy |
| `PipelineHistory.HistoryInvKept` | app/modules/order/queue_manager.py:31-55 | every step keeps published payloads on the stream, discarded ones in the dead letters or replayed from there, and ignored entries acknowledged |
| `PipelineOwners.OwnInvKept` | app/modules/order/service.py:69-108 | every step keeps at most one owner per amount, the ledger included, and one per seeded amount, except a fallback commit of what is free or held and a restart while somebody holds what is in `amounts` |
| `PipelineOwners.FallbackExact` | app/modules/order/service.py:187-193 | a fallback commit leaves no amount in two hands iff its amount is neither in `free_amounts` nor held by a request or a worker in flight |
| `PipelineOwners.RestartExact` | app/main.py:25-42 | a restart leaves no amount in two hands iff no amount held by a request or a worker in flight is in `amounts`, counting it as the seeded range when it is empty |
| `PipelineOwners.RestartLedger` | app/main.py:25-42 | an amount is lost at a restart iff it was free without being in `amounts`, recovered iff it was lost while in `amounts`, and keeps its owner otherwise |
| `PipelineSafety.NoAcceptedSmsIsLost` | app/modules/order/service.py:292-326 | in every reachable state a stored SMS has an unpublished row, an unacknowledged stream entry, a dead letter, a linked intent, or an acknowledged entry whose handler found no matching intent |
| `PipelineSafety.MatchingIsCorrect` | app/modules/order/models.py:59-59 | an intent that carries an SMS is PAID, as is its order, at exactly the amount of that SMS, and no other intent carries it |
| `PipelineSafety.LinkIsForever` | app/modules/order/service.py:245-250 | a link that exists in some state exists in every later one |
| `PipelineSafety.PendingAmountsAreUnique` | app/modules/order/models.py:62-69 | in every reachable state no two PENDING intents share an amount, so the "multiple intents" branch is never taken |
| `PipelineSafety.RelaysAreSound` | app/modules/order/tasks.py:78-196 | PUBLISHED only if the payload is on the stream, FAILED only if it is in the dead letters, was replayed from there, or the count is 5, PENDING and PROCESSING at most 4, with any number of overlapping relays |
| `PipelineSafety.AcksAreSafe` | app/worker.py:112-142 | every stream id is in exactly one of three places, and an acknowledged one has a linked SMS, or its own handler found no intent, or it has a dead-letter copy that is still there, replayed or settled |
| `PipelineSafety.EveryAmountHasOneOwner` | app/modules/order/service.py:46-110 | in every run of safe steps no amount whatever has two owners among free set, requests, PENDING intents, workers and ledger, and every seeded amount has one |
| `PipelineSafety.SafeExactlyWhenSingle` | app/modules/order/service.py:176-194 | a run never has an amount in two hands iff each of its fallback commits and restarts meets the exact condition |
| `PipelineSafety.FallbackBreaksSingleOwnership` | app/modules/order/service.py:187-193 | a concrete run in which the fallback leaves an amount both free and PENDING |
| `PipelineSafety.FallbackOutsideRangeBreaksSingleOwnership` | app/modules/order/service.py:197-205 | a concrete run, through a restart and a confirmation, in which it does so with an amount outside the seeded range |
| `PipelineSafety.BusyRestartBreaksSingleOwnership` | app/main.py:42-42 | a concrete run in which a restart frees an amount that a request holds |
| `PipelineRefinement.Refines` | app/modules/order/service.py:230-260 | seen through the tables, the three sets and the ledger, every step of the pipeline is nothing or one permitted step of a matcher that settles only unused SMS at their exact amount and gives back only what it owes |
| `PipelineRefinement.MatcherIsExactlyOnce` | app/modules/order/models.py:59-59 | in every run of that matcher an SMS is settled as often as an intent carries it, at most once, and given back as often as it is settled and no longer owed |
| `PipelineRefinement.RedundantChangesNothing` | app/modules/order/service.py:234-239 | no sub-step on a message whose SMS is already linked changes tables, sets or ledger, unless the worker itself has just linked it |
| `PipelineRefinement.RepeatsDoNotMatter` | app/modules/order/handlers.py:18-27 | with all interleavings, errors and crashes: dropping from a run every sub-step on an already linked SMS leaves a permitted run of the matcher with the same final tables, sets and ledger |
| `PipelineRefinement.EndIgnoresRepeats` | app/modules/order/handlers.py:18-27 | two runs that differ only in such deliveries end with the same tables, sets and ledger |
| `PipelineRefinement.SettledExactlyOnce` | app/modules/order/service.py:234-239 | in any run an SMS is settled at most once, and exactly once iff an intent carries it at the end |
| `PipelineRefinement.ReleasedAtMostOnce` | app/modules/order/handlers.py:18-24 | in any run the amount of an SMS leaves its worker's hands at most once, and has done so iff the SMS is linked and no worker still owes the release |
| `PipelineDelivery.UninterruptedDelivery` | app/modules/order/handlers.py:12-47 | whatever error strikes, the sub-steps of one delivery nobody interferes with have together the effect and the verdict of the sequential handler |
| `PipelineDelivery.RepeatIsAcknowledged` | app/modules/order/handlers.py:18-32 | a delivery of an already linked SMS, wherever it stands, is acknowledged by steps the removal theorem drops, if no error strikes and nobody holds a lock |
| `PipelineMessage.UninterruptedMessage` | app/worker.py:112-142 | from picking a message up to putting it down, the worker's sub-steps are one step of its loop around one handler call, whatever error strikes the handler, the dead-letter write or the acknowledgement |
| `PipelineMessage.UninterruptedClaims` | app/modules/order/queue_manager.py:140-159 | the claims of a batch, one by one, are the claim of the consumer group: the oldest idle entries, counts and messages alike |
| `PipelineSequential.UninterruptedPass` | app/modules/order/tasks.py:199-215 | a claim, its writes one by one and the final update are one pass of the relay, with the same rows and the same entries on the two streams |
| `PipelineSequential.UninterruptedOrder` | app/modules/order/service.py:46-90 | a request nobody interferes with leaves both rows and the allocation if no PENDING intent has its amount, and otherwise an allocation undone and nothing else |
| `PipelineSequential.ReplayConserves` | app/modules/admin/dlq_manager.py:38-55 | a replay moves one payload if its letter is still there and adds a second copy otherwise |
| `PipelineBurial.NothingIsBuriedEarly` | app/worker.py:74-97 | in every reachable state an entry a worker has copied into the dead letters that is still pending has no amount or at least four deliveries |
| `Startup.PageTakesSmallest` | app/modules/order/service.py:139-149 | a page is the smallest ids in increasing order, and short only when it leaves nothing out |
| `Startup.PageAdvances` | app/modules/order/service.py:143-148 | what is left after a page is exactly what lies above its last id |
| `Startup.PendingOrders.Next` | app/modules/order/service.py:139-149 | each call yields, in order, exactly the PENDING intents between the old and the new cursor, at most the limit, and nothing only when none is left |
| `Startup.Application.SeedAmounts` | app/db/redis_db.py:31-39 | any positive batch size makes an absent `amounts` exactly first..last and leaves an existing one alone; no SADD is empty or longer than a batch |
| `Startup.Application.RebuildPending` | app/main.py:28-40 | `pending_orders` becomes exactly the amounts of the PENDING intents with positive ids, and no SADD is empty or longer than a full buffer and one page |
| `Startup.Application.Lifespan` | app/main.py:25-42 | with positive ids the startup is exactly the rebuild the state machine's restart uses; free is `amounts` without the pending ones |
| `DeadLetters.PagingIsComplete` | app/modules/admin/dlq_manager.py:11-35 | following the cursor over an unchanged stream ends after floor(length/count) + 1 requests with the whole stream in order |
| `DeadLetters.FollowSeesWhatStays` | app/modules/admin/dlq_manager.py:11-35 | over a stream that changes between requests no entry is listed twice, and a listing that ends contains every entry that stayed |
| `DeadLetters.DeadLetterQueue.GetDeadLetters` | app/modules/admin/dlq_manager.py:11-35 | one page, each entry field by field or with the default of an absent field, and a next cursor iff the page is full |
| `DeadLetters.DeadLetterQueue.ReplayMessage` | app/modules/admin/dlq_manager.py:38-55 | the entry leaves the dead letters and enters the stream with attempts 0 under a new highest id; no payload is lost or doubled |
| `RefreshTokens.AuthService.ValidateAndRevoke` | app/modules/users/service.py:76-82 | finds and revokes the token iff it exists, is not revoked and has not expired |
| `RefreshTokens.AuthService.CreateRecord` | app/modules/users/service.py:66-73 | none iff the hash is taken, else the session gains exactly the new record |
| `RefreshTokens.AuthService.LoginUser` | app/modules/users/router.py:74-100 | succeeds iff the jti is new and the commit raises nothing, adding one live token of the user with its own family and expiry; a login that fails adds nothing unless its commit took effect |
| `RefreshTokens.AuthService.RefreshToken` | app/modules/users/router.py:110-194 | a rotation revokes the presented token and adds the new one for the same user and family with the new expiry; every other answer iff by iff, and exactly which tokens it revokes: the family when the user is gone or the token is replayed, the token alone when it has expired, none otherwise |
| `RefreshTokens.AuthService.RefreshWithoutRecord` | app/modules/users/router.py:142-163 | without a spendable token no record is added or restored; an answer is the cached pair and changes nothing, a replay revokes exactly the family, an expiry exactly the token |
| `RefreshRuns.InvKept` | app/modules/users/service.py:66-109 | every step keeps rotations distinct and acyclic, one unrotated token per family, and cached answers true |
| `RefreshRuns.RotationIsAChain` | app/modules/users/router.py:140-190 | a family has at most one token that is not revoked, no jti is rotated twice, and a token that is not revoked has not been rotated |
| `RefreshRuns.RevokedForever` | app/modules/users/service.py:76-109 | a revoked token stays revoked with the same user and family, rolled-back refusals included |
| `RefreshRuns.ReplayKills` | app/modules/users/router.py:147-153 | a revoked jti without a cached answer gets its whole family revoked |
| `RefreshRuns.DeathIsPermanent` | app/modules/users/service.py:102-109 | a family whose tokens are all revoked never has another live one |
| `RefreshRuns.GraceAgrees` | app/db/redis_db.py:11-23 | a cached answer is the pair of the one rotation of its jti |
| `RefreshRuns.AnswersAgree` | app/modules/users/router.py:148-155 | all successful answers one refresh token ever gets are the same pair |
| `RefreshRuns.RetryAfterRotation` | app/modules/users/router.py:147-194 | whatever error the rotation met after committing, a later error-free retry gets the rotation's pair and changes nothing iff the answer was cached and is read within 30 seconds of the write; otherwise the family ends |
| `RefreshRuns.LostAnswerKillsFamily` | app/modules/users/router.py:188-194 | the same right after the rotation, error by error: the retry ends the family, new token included, iff the answer was not cached or the 30 seconds are over |

## Left out

- The Persian text search of the SMS parser; only its numbers are read. `int` also takes digits of further scripts, signs, spaces and underscores, which the search never hands over in full.
- JSON encoding: a payload is a record of the four keys that are read.
- JWT signing and decoding, password hashing, and the generation of jti and family ids: claims arrive decoded, and a login's family is new.
- Trimming of streams (`MAXLEN ~ 100000`): fewer entries than that are assumed, so a stream id is a position in the log.
- Integer widths of columns, and text lengths.
- The texts of `last_error`, log messages, message timestamps, and which relay wrote a dead letter's extra fields.
- `delete_order_service`, the EXPIRED and REVIEWED statuses and FAILED intents in the state machine: nothing drives them. `Payments` does have the confirmation of a FAILED intent.
- The admin confirmation is one step in the state machine, although its SMOVE precedes its commit.
- An order and its intent share one id in the tables.
- Concurrent refresh requests inside one transaction: each request's committed effect is atomic. Deleting users or tokens is not modelled.
- Which error a driver raises for a boolean where a number is compared.
- An exception that leaves a batch and a crash of the worker are one step in the state machine: both drop the messages in hand.
- OutboxDrain.OutboxDrains: one relay without crashes, no arrivals and no row left PROCESSING, as the bound needs.
- WorkerHistory.AlwaysFailingMessage: one consumer, Redis up and no payload that raises outside the handlers.
- Startup.Application.Lifespan: the intent table does not change while the startup pages through it.
- Orders.OrderService.CreateOrderService: the commit that follows in the router is a step of the state machine, where it may fail and leak its amount. An amount of 0, which the code treats as none, is excluded from the exact undo.
- DeadLetters.DeadLetterQueue.ReplayMessage: two replays of one message at once are modelled in the state machine, where the payload can then appear twice.
- Routing, schemas, HTTP status codes beyond the refresh answers, configuration, logging, migrations, user registration and listings.
