# Payment platform: protocols and proofs

This project models five parts of a payment platform made of small services and proves what they
guarantee over every run.

1. **Payments.** Concurrent requests share Redis, a lock that may expire, the `payments` and
   `idem_keys` tables, a bank, a Kafka log and a recovery job.
2. **Ledger.** Handlers apply `payment.succeeded` events in transactions of four writes. Coupled with
   the payment service through the log, money is conserved end to end.
3. **Webhooks.** Events fan out to endpoints, jobs are retried, exhausted deliveries leave dead letters.
4. **API keys.** Validations are cached with a time to live and race with revocations.
5. **Gateway.** A fixed-window rate limiter that prunes, and the scope string that one service prints
   and another parses.

## How it is built

Each of the first four parts is a transition system: a `...Protocol` module with a state, a datatype of
actions and a total function `Step`. One action is one external call, so a run is any interleaving of
the calls of all actors. A call may fail before it took effect or after, actors may stop anywhere, and
Redis may drop a key at any time. `Runs` has the induction principles; the `...Invariant`, `...Steps`
and `...Theorems` modules hold the inductive invariant, its proof and what follows from it.

The services themselves are classes (`PaymentService`, `LedgerService`, `LedgerConsumer`,
`WebhookService`, `KeyService`, `RateLimitGuard`) whose methods make the source's calls in the source's
order on mutable fields. After every call, `Others` lets all other actors make any number of steps.
A class keeps a ghost `trace`; `Valid` says that its fields are the state that the trace leads to, so
every method is proved to be a part of a run and every theorem about runs holds for it.

Protocols that only compare ids, keys and names hold them as `Symbol`s, numbers of interned strings
(`GoText.Intern`, `GoText.Chars`); where the code looks at characters, so does the model. Functions that
make keys (`cacheKey`, `lockKey`, `deliveryId`) are parameters of the states. They need not be
injective, and statements that need them to be say so.

Assumed of the environment: a statement or transaction is atomic and a key violation undoes all of it;
an event id drawn twice counts as a failed publish; adding a job under an existing id does nothing, a
failed attempt counts, and a job whose worker died is handed out again uncounted; all services of the
key cache share one clock.

## Where the code and what is said about it differ

* "Each payment is credited at most once" does not hold: a publish draws a new event id and the ledger
  knows events by id. `DoubleCredit` has the run, `SafePayments` and `CreditedOnce` the exact condition.
* "A committed offset means that everything before it was handled" does not hold. `ConsumerOffsets` has
  the runs and the exact condition.
* "When a dispatch returns normally every selected endpoint is served or will be" does not hold: an
  automatic job that has ended without a terminal row, say because its endpoint was off, is never added
  again, and a redelivery of the event takes it for its own. `WebhookLost` has the run and the exact
  condition.
* "Delivered" and "dead" are not final as such. `WebhookFinality` has the exact condition, `WebhookLost`
  a run in which an accepted delivery ends as failed.
* A payment whose request stops between its insert and its save is processing for ever, since the
  recovery job looks only at settled rows. `StuckPayments` has the run and the exact condition.
* The repository's README says that the payment service publishes `payment.failed`; a request never
  does, only the recovery job, which finds the failed row unpublished.
* The limiter admits at most `2 * maxRequests - 1` requests in a window's length, one less than twice
  the limit, and that many are reached.

## Model

| member | source | states |
|---|---|---|
| PaymentTheorems.AtMostOneBankCall | services/payment/internal/service/payment_sevice.go:153-208 | over every run, with failed calls, crashes, lost cache entries and expired locks, at most one bank authorization per merchant and idempotency key, even if several keys share a cache key |
| PaymentTheorems.BankCallFollowsInserts | services/payment/internal/service/payment_sevice.go:153-208 | the step that calls the bank finds the payment row and its idempotency record in place and no earlier call under that cache key |
| PaymentTheorems.RowsFollowLifecycle | services/payment/internal/repository/payment_repository.go:22-47 | between any two moments of any run no row is lost, its identity stays, its status moves only from processing to completed or failed, and the full-row save never clears the published flag, which only settled rows carry |
| PaymentTheorems.IdempotentIdentity | services/payment/internal/service/payment_sevice.go:384-512 | whatever the record, the cache, a slow reader about to refill the cache, or a response shows for a cache key, now or later, is one payment with one amount and one customer, and settled copies agree on the outcome |
| PaymentTheorems.NoInventedOutcome | services/payment/internal/service/payment_sevice.go:208-300 | a copy that reports an outcome has the payments row's outcome, and that is the bank's answer in the only call for that cache key |
| PaymentTheorems.OutboxIsSound | services/payment/internal/service/payment_sevice.go:518-570 | a published flag is backed by an event in the log that equals the row field by field; every event matches its payment's outcome; no payment has events of both kinds |
| PaymentTheorems.FailuresAreAnnouncedByRecovery | services/payment/internal/service/payment_sevice.go:214-307 | an event that a request's own call adds to the log announces success; a payment.failed event is only ever added by a recovery step |
| PaymentTheorems.PollsAreBounded | services/payment/internal/service/payment_sevice.go:384-421 | over every run a request looks at most six times for somebody else's result, is told that the payment is in progress only after the sixth lookup, and that it was cancelled only before the fifth |
| Replays.KnownIsReturned | services/payment/internal/service/payment_sevice.go:96-151 | over every run a request that looks up a cache key with a record or a cached copy, and whose own calls do not fail and meet no lock value under that key, is answered with that key's payment after three calls at most, whatever others do, unless it crashes |
| PaymentKeys.RetryIsAnswered | services/payment/internal/service/payment_sevice.go:423-471 | with the keys as they are built no lookup ever meets a lock value, so such a retry is answered with the payment |
| PaymentErrors.ErrorHasReason | services/payment/internal/service/payment_sevice.go:58-318 | over every run each error answer but a crash has its reason in the state of one call of the request: which call failed, which insert found its key taken, what the bank said, or that the sixth lookup found nothing |
| PaymentErrors.ReasonErrs | services/payment/internal/service/payment_sevice.go:58-318 | and each such call does end the request with that error |
| PaymentCalls.WritesRedis | services/payment/internal/service/payment_sevice.go:113-130 | the lock is written only where there is none, a copy that was found and the settled copy under the cache key, and no other call of a request writes Redis |
| PaymentCalls.WritesPayments | services/payment/internal/repository/payment_repository.go:18-36 | the new row only where id and key are free, the settled row as a whole, the flag alone, and nothing else |
| PaymentCalls.WritesRecords | services/payment/internal/repository/idem_key_repository.go:22-42 | a new record only where there is none, the settled copy only over an existing one, and nothing else |
| PaymentCalls.WritesBankAndLog | services/payment/internal/kafka/producer.go:60-119 | one bank call for the request's payment; a publish under a fresh id appends events that equal the payment field by field |
| PaymentSteps.StepKeepsInvariant | services/payment/internal/service/payment_sevice.go:58-318 | every call, crash, cache loss and recovery step keeps the protocol's invariant, and the tables, the bank's history and the log only grow |
| PaymentTheorems.ReachableIsGood | services/payment/internal/service/payment_sevice.go:58-318 | the invariant holds in every reachable state, for any functions that make the cache and lock keys |
| StuckPayments.ProcessingForEverIff | services/payment/internal/service/recovery_service.go:44-78 | a processing row stays processing in every continuation exactly when no live request is between inserting it and saving its outcome: the recovery job never rescues it |
| StuckPayments.CanBeStuck | services/payment/internal/service/payment_sevice.go:153-160 | for every ordinary request there is a run, a crash right after its insert, that leaves its payment processing for ever |
| StuckPayments.StepKeepsStuck | services/payment/internal/repository/payment_repository.go:38-47 | no step settles such a row |
| StuckPayments.SettlerSettles | services/payment/internal/service/payment_sevice.go:153-287 | a live request on its way can settle its row |
| PaymentKeys.SameCacheKeyIff | services/payment/internal/service/payment_sevice.go:514-516 | two requests share a cache key exactly when merchant and short hash of the idempotency key agree, whatever characters the merchant id has |
| PaymentKeys.ShortHashIsAPrefix | services/payment/internal/logsafe/hash.go:9-17 | a blank key has the empty short hash, any other the first twelve digits of the digest of the trimmed key |
| PaymentKeys.CacheKeysDiffer | services/payment/internal/logsafe/hash.go:9-17 | two keys of a merchant share a cache key exactly when those digits agree |
| PaymentKeys.LockKeyIsNoCacheKey | services/payment/internal/service/payment_sevice.go:85-86 | no lock key is a cache key |
| PaymentKeys.OwnMerchantOnly | services/payment/internal/service/payment_sevice.go:423-471 | a request is only told about a payment of its own merchant whose idempotency key has the same short hash |
| PaymentStores.PaymentsRepository.Create | services/payment/internal/repository/payment_repository.go:18-20 | insert under the primary key and the unique index on merchant and idempotency key; a failed call may still have inserted |
| PaymentStores.PaymentsRepository.Update | services/payment/internal/repository/payment_repository.go:22-24 | the whole row is written, the published flag included |
| PaymentStores.PaymentsRepository.MarkEventPublished | services/payment/internal/repository/payment_repository.go:34-36 | only the flag of an existing row is set |
| PaymentStores.PaymentsRepository.GetAllUnpublished | services/payment/internal/repository/payment_repository.go:38-47 | the completed and failed rows without the flag, and no others, each once, in some order |
| PaymentStores.IdemKeyRepository.Create | services/payment/internal/repository/idem_key_repository.go:22-24 | insert under the primary key |
| PaymentStores.IdemKeyRepository.GetByKey | services/payment/internal/repository/idem_key_repository.go:26-35 | the record of the key, or none |
| PaymentStores.IdemKeyRepository.UpdateResponse | services/payment/internal/repository/idem_key_repository.go:37-42 | an existing record is overwritten, a missing one is not made |
| PaymentStores.RedisClient.SetNx | services/payment/internal/service/payment_sevice.go:113-130 | the lock is taken if nobody has it; an error leaves open whether it was taken |
| PaymentStores.Producer.Publish | services/payment/internal/kafka/producer.go:60-119 | the payment's event is appended under the new id, field by field the payment's, by the writer's retries possibly several times, and possibly although an error is reported; nothing is appended if the call failed first |
| PaymentService.PaymentService.GetIdempotencyResult | services/payment/internal/service/payment_sevice.go:423-471 | the copy in the cache if the cache read succeeds and finds one; otherwise the record at the moment of the second read; missing only if neither read finds anything; failed only on a lock value or a failed record read; and where the request goes on from there |
| PaymentService.PaymentService.ReadCached | services/payment/internal/service/payment_sevice.go:425-440 | over exactly if the read succeeds and finds an entry, and then found or, at a lock value, failed |
| PaymentService.PaymentService.ReadStored | services/payment/internal/service/payment_sevice.go:441-471 | found exactly if the read succeeds and there is a record; missing if it succeeds and there is none |
| PaymentService.PaymentService.AcquireLock | services/payment/internal/service/payment_sevice.go:113-130 | acquired exactly if the call succeeds and nobody has the lock |
| PaymentService.PaymentService.PollForResults | services/payment/internal/service/payment_sevice.go:384-421 | at most six lookups of this request are in the run; in progress is reported only when six are, and cancelled only when fewer than five are |
| PaymentService.PaymentService.StoreIdempotencyResult | services/payment/internal/service/payment_sevice.go:473-512 | the record must be written, the cache need not |
| PaymentService.PaymentService.PublishEvent | services/payment/internal/service/payment_sevice.go:518-570 | event first, flag second, for requests and recovery runs alike; success means the row is flagged, then and later |
| PaymentService.PaymentService.CreatePayment | services/payment/internal/service/payment_sevice.go:58-318 | the whole request, call by call with other actors in between, is a part of a run; its payment carries the input's fields; what it returns is a copy of the payment that owns its cache key; an error has its reason in one of its calls; and if the key was on record when it came, then one of its calls failed or a lock value was under the cache key |
| PaymentService.PaymentService.Charge | services/payment/internal/service/payment_sevice.go:207-318 | the bank's recorded reply decides the response: the payment if approved, declined with the bank's message, or provider failed, and then the row has that outcome; or a persistence error, and then a call of this request failed |
| PaymentService.PaymentService.RunRecovery | services/payment/internal/service/recovery_service.go:44-78 | every row that was completed or failed at the start is flagged at the end, but for those for which a call of the run failed; one failure does not stop the rest; without failures what is unflagged at the end was processing at the start or not there |
| LedgerTheorems.ExactlyOnce | services/ledger/internal/service/ledger_service.go:61-203 | in every reachable state the four tables are those of a list of distinct, valid events: one debit, one credit, one pending increment and one processed row each, and nothing else |
| LedgerTheorems.OnlyWellFormedIsApplied | services/ledger/internal/service/ledger_service.go:219-240 | validation accepts exactly the events with non-blank ids, the right type and source, a positive amount in NGN and status completed; a rejection names something that is wrong; and nothing else is ever applied |
| LedgerTheorems.StepAppliesAllOrNothing | services/ledger/internal/service/ledger_service.go:112-194 | a step that changes the tables is the commit of an event not processed before, and writes a debit and a credit over its amount, the amount on the pending balance and the processed row |
| LedgerTheorems.ProcessedForever | services/ledger/internal/repository/processed_events_repo.go:27-44 | a processed event stays processed |
| LedgerTheorems.ProcessedIffCommitted | services/ledger/internal/service/ledger_service.go:112-194 | an event is in processed_events exactly if some handler's commit of it took effect, whatever that handler reported |
| LedgerTheorems.SuccessMeansProcessed | services/ledger/internal/service/ledger_service.go:87-214 | a handler that reports success has its event in the books, for ever |
| LedgerTheorems.RedeliveryIsAcknowledged | services/ledger/internal/service/ledger_service.go:87-102 | an event in the books that is delivered again to a new handler is answered AlreadyProcessed by its first call, if that call succeeds, whatever happens before, and nothing is written |
| LedgerTheorems.FailedHasReason | services/ledger/internal/service/ledger_service.go:61-217 | over every run a handler that answered Failed had a call of its own fail, or found the event's key taken or the sum beyond a BIGINT, or was stopped |
| LedgerTheorems.ReasonFails | services/ledger/internal/service/ledger_service.go:112-203 | and each of these does end a handler as failed |
| LedgerTheorems.DoubleEntry | services/ledger/internal/repository/merchant_balance_repo.go:28-80 | debits equal credits per payment and per merchant, the journal folds to zero, nothing is ever available |
| LedgerTheorems.JournalBalanceIsDifference | services/ledger/internal/repository/merchant_balance_repo.go:57-80 | the balance computed from any journal is the merchant's credits less its debits |
| LedgerTheorems.VerifyBalanceAgrees | services/ledger/internal/service/ledger_service.go:273-317 | stored balance and journal agree whatever commits between the two reads |
| LedgerService.LedgerService.HandlePaymentSucceeded | services/ledger/internal/service/ledger_service.go:61-217 | a part of a run; success means the event is processed; an event is rejected exactly if validation fails; one that was processed before is acknowledged unless the check itself fails; Failed needs a failed call of this handler, a key taken meanwhile or a sum beyond BIGINT |
| LedgerService.LedgerService.CommitTx | services/ledger/internal/service/ledger_service.go:112-194 | the next state has all of the transaction's writes, unless the call failed first, the event is there or the sum is no BIGINT, and then none; success is reported only for the former |
| LedgerService.LedgerService.GetBalance | services/ledger/internal/service/ledger_service.go:242-271 | available zero and pending the sum of the merchant's applied events, zero for an unknown merchant |
| LedgerService.LedgerService.VerifyBalance | services/ledger/internal/service/ledger_service.go:273-317 | both reads succeed exactly when it answers, and then it answers true |
| LedgerConsumer.KafkaConsumer.HandleMessage | services/ledger/internal/consumer/kafka.go:151-229 | an error is returned only for a signed, valid payment.succeeded event, and only if a call of its handler failed or was refused, for an event already in the books only if the check failed; without an error such an event is in the books; only unreadable signed messages are reported unprocessed without an error |
| LedgerConsumer.KafkaConsumer.Consume | services/ledger/internal/consumer/kafka.go:95-149 | every relevant message fetched is in the books or its own handling failed; position, committed offset and failures are those of the rounds, and the rounds are those of the ledger's run; and the condition of CommitCoversMissingIff tells when what is committed covers a relevant event that is not in the books |
| ConsumerOffsets.CommitCoversMissingIff | services/ledger/internal/consumer/kafka.go:119-137 | the committed offset covers a signed, valid payment.succeeded event that is not in the books exactly when the round that fetched it failed, no commit of it took effect, its own included, and a later round committed |
| ConsumerOffsets.CommitCanCoverMissing | services/ledger/internal/consumer/kafka.go:119-137 | for every log in which such an event is followed by a message that is skipped, and every run of the ledger that has not applied it, there is a continuation in which both offsets are committed and the event is not in the books |
| Conservation.PendingIsConserved | services/ledger/internal/service/ledger_service.go:87-194 | in every reachable state of payment service, log and ledger, a merchant's pending balance is the sum over its completed payments of amount times the number of the payment's processed events |
| Conservation.CreditedAreApplied | services/ledger/internal/service/ledger_service.go:87-194 | the processed events of the log for a payment are exactly those the ledger applied for it |
| Contract.EveryEventMeetsTheContract | services/ledger/internal/service/ledger_service.go:219-240 | an event in the log passes the ledger's validation exactly when it is payment.succeeded, that is, when its payment is completed |
| EndToEnd.ReachableIsGood | services/ledger/internal/consumer/kafka.go:151-229 | both services' invariants hold together, and the ledger has only events of the log |
| CreditedOnce.CreditedAtMostOnceForEverIff | services/payment/internal/service/recovery_service.go:44-78 | over all continuations of payment service, recovery job, log and ledger together a payment is credited at most once exactly when it failed, or is processing and no live request can complete it, or is completed, flagged and announced under at most one id with neither its request nor a recovery run about to publish it |
| SafePayments.StepKeepsSafe | services/payment/internal/service/payment_sevice.go:518-570 | every step of the payment service keeps that condition |
| SafePayments.UnsafeCanBeAnnouncedTwice | services/payment/internal/service/payment_sevice.go:518-570 | whenever it does not hold, a run leads to two event ids that announce the payment's success |
| DoubleCredit.CreditedAtMostOnceIff | services/payment/internal/kafka/producer.go:60-78 | while only the ledger acts, it credits a payment at most once exactly when the log holds at most one event id announcing its success |
| DoubleCredit.PaymentCanBeCreditedTwice | services/payment/internal/kafka/producer.go:60-78 | for every ordinary request there is a run in which its one payment is credited twice |
| DoubleCredit.EventCanBeApplied | services/ledger/internal/service/ledger_service.go:61-203 | any valid event that is new to the ledger and fits the balance can be delivered and applied |
| RepublishedPayment.CanBeAnnouncedTwice | services/payment/internal/service/recovery_service.go:60-69 | a publish whose answer is lost is repeated by the recovery job under a second event id |
| RecoveryRuns.SettledCanBeAnnounced | services/payment/internal/service/recovery_service.go:44-78 | in every reachable state a recovery run can announce and flag any completed or failed row that is not flagged: one event more, of the row's own outcome |
| RecoveryRuns.DeclinedIsAnnounced | services/payment/internal/service/recovery_service.go:60-69 | for every ordinary request and every message there is a run in which the bank declines it, the request is told so and announces nothing, and a recovery run then announces the failure and flags the row |
| WebhookSteps.StepKeepsInvariant | services/webhook/src/deliveries/delivery.processor.ts:37-173 | every step of consumers, queue, workers, users and endpoint changes keeps the invariant; rows, letters, jobs and dispatches never go back |
| WebhookTheorems.AtMostOneDelivery | services/webhook/src/deliveries/deliveries.service.ts:15-63 | for any number of dispatches of an event there is at most one delivery row and one automatic job per endpoint and event, and a row belongs to its endpoint's merchant |
| WebhookSelected.DeliveriesWereWanted | services/webhook/src/endpoints/endpoints.repository.ts:73-96 | every delivery of every reachable state goes back to a dispatch of its event, at a step that found its endpoint there, active, owned by the event's merchant and subscribed to its type |
| WebhookTheorems.FanOutIsComplete | services/webhook/src/consumers/events.consumer.ts:183-256 | a dispatch that returned normally has left a row and a job for every endpoint that was active and subscribed when it selected them; the job may have ended, for which see WebhookLost |
| WebhookDispatches.FailedDispatchHasReason | services/webhook/src/consumers/events.consumer.ts:183-256 | over every run a dispatch that has thrown, or will because of one of its calls, had its selection or one of its own calls fail, or found an endpoint gone |
| WebhookDispatches.JoinsAllOrThrows | services/webhook/src/consumers/events.consumer.ts:226-248 | once all calls are settled the dispatch returns normally exactly if none of them failed |
| WebhookLost.ReturnServesIff | services/webhook/src/deliveries/deliveries.service.ts:33-57 | for every dispatch that returned normally and every endpoint it selected there was the moment its enqueue call succeeded, and then the delivery was terminal or queued exactly if its automatic job had not ended before without a terminal row |
| WebhookLost.ReturnedDispatchCanLose | services/webhook/src/deliveries/deliveries.service.ts:41-57 | for every event and endpoint there is a run after which a dispatch has returned normally, the endpoint is active and subscribed, nothing was ever posted to it, and nothing will be without a manual retry |
| WebhookLost.NeverDeliveredIff | services/webhook/src/deliveries/deliveries.service.ts:33-57 | a delivery that is not delivered yet stays undelivered in every continuation without a manual retry exactly when it is lost in this way, or dead with all its jobs ended |
| WebhookScenarios.RedispatchLosesDelivery | services/webhook/src/deliveries/deliveries.service.ts:41-57 | that run, with the state it leads to |
| WebhookTheorems.AttemptsAreBounded | services/webhook/src/deliveries/deliveries.service.ts:41-57 | a job makes at most five counted attempts, is started once more only per worker that died with it, fails for good exactly after five, and never misses its row |
| WebhookVerdicts.CallDecides | services/webhook/src/deliveries/delivery.processor.ts:37-173 | what each call of process leads to: which ones fail the attempt, end the job with which result, or go on to which call, and what becomes of the job |
| WebhookVerdicts.MarkingCall | services/webhook/src/deliveries/deliveries.repository.ts:107-149 | which row each call writes with which status and note and one attempt more, and that nothing else changes |
| WebhookVerdicts.BuryingCall | services/webhook/src/deliveries/deliveries.repository.ts:151-176 | the burial marks the row dead and leaves a letter of this attempt and cause, touching no other letter, or does nothing |
| WebhookVerdicts.AttemptsAreFailures | services/webhook/src/deliveries/delivery.processor.ts:37-173 | over every run a job's attempt count is exactly the number of its calls that failed an attempt |
| WebhookVerdicts.EndHasReason | services/webhook/src/deliveries/delivery.processor.ts:37-173 | a job that ended with a result was ended by the call which that result reports |
| WebhookTheorems.JobsMakeProgress | services/webhook/src/deliveries/delivery.processor.ts:37-173 | every call of a living worker brings its job nearer to its end, whatever the outcome, and no other step moves it away |
| WebhookProgress.JobsEnd | services/webhook/src/deliveries/delivery.processor.ts:37-173 | in every reachable state a job can be moved on exactly if it has not ended; over any run it is moved at most 59 times and seven more for each worker that died with it, and after that many it has ended |
| WebhookProgress.RunBound | services/webhook/src/deliveries/delivery.processor.ts:37-173 | from any state on, the number of moves of a job and the distance that is left at the end are no more than the distance at the start and seven per death |
| WebhookProgress.JobCanBeEnded | services/webhook/src/deliveries/delivery.processor.ts:37-173 | from every reachable state any unfinished job is brought to its end by its own steps alone, within that distance, whatever the stores and the endpoint answer |
| WebhookTheorems.DeadLettersAreConsistent | services/webhook/src/deliveries/deliveries.repository.ts:151-176 | a dead delivery has, then and for ever, exactly one dead letter, which agrees with it; only its failure log may change; manual retries included |
| WebhookTheorems.DeliveredWasPosted | services/webhook/src/deliveries/delivery.processor.ts:82-107 | a delivery marked delivered had a post that its endpoint answered with success |
| WebhookFinality.TerminalIsFinalIff | services/webhook/src/deliveries/delivery.processor.ts:82-172 | a delivered or dead row keeps its state in every continuation without a manual retry exactly when all its jobs have ended and none is about to be added |
| WebhookFinality.StepKeepsSettled | services/webhook/src/deliveries/deliveries.service.ts:33-39 | no step but a manual retry touches such a row, redeliveries included |
| WebhookFinality.RestlessRowCanFail | services/webhook/src/deliveries/delivery.processor.ts:55-69 | otherwise some continuation ends with the row failed |
| WebhookLost.DeliveredCanFail | services/webhook/src/deliveries/delivery.processor.ts:82-129 | for every event and endpoint there is a run in which the endpoint accepts the post and the row is delivered, and which, as the write's answer is lost or the worker dies, goes on to failed without a manual retry |
| WebhookFinality.RetryReopens | services/webhook/src/deliveries/deliveries.service.ts:102-125 | a manual retry makes every delivery changeable again, whatever its status |
| WebhookVerdicts.RetryAddsOneJob | services/webhook/src/deliveries/deliveries.service.ts:102-136 | a retry adds one job to a delivery of the merchant who asks and does nothing else; for anybody else's it does nothing |
| WebhookEndings.JobsEndAsReported | services/webhook/src/deliveries/delivery.processor.ts:37-173 | while the stores answer, a job that has ended has left its row delivered, dead, or failed because its endpoint was switched off, and one that has not ended has a row that is not terminal |
| WebhookProgress.CleanJobsEnd | services/webhook/src/deliveries/delivery.processor.ts:37-173 | while the stores answer, a delivery's job has ended in one of these ways, or it can be moved on and was moved fewer than 59 times |
| WebhookService.WebhookService.CreateRow | services/webhook/src/deliveries/deliveries.repository.ts:15-43 | the next state has the new row, or what was there: an existing row is not touched, whatever its status, and no row is made without its endpoint; enqueue is done if the row is delivered or dead, and goes on otherwise |
| WebhookService.WebhookService.AddAutomaticJob | services/webhook/src/deliveries/deliveries.service.ts:41-57 | the next state has a new waiting job under a new id; under an existing id nothing changes, and success is reported all the same |
| WebhookService.WebhookService.EnqueueAll | services/webhook/src/consumers/events.consumer.ts:214-236 | the enqueue calls of a dispatch run side by side, in any interleaving, until all are settled |
| WebhookService.WebhookService.FindActiveForEvent | services/webhook/src/endpoints/endpoints.repository.ts:73-96 | exactly the endpoints of the event's merchant that are active and have the event type among their events, at the moment of the read |
| WebhookService.WebhookService.Dispatch | services/webhook/src/consumers/events.consumer.ts:183-256 | the whole dispatch is a part of a run; when it returns normally each endpoint selected has its row, and had its delivery terminal or queued at the moment of its enqueue call exactly if it was not lost already; it throws only if one of its calls failed or found its endpoint gone |
| WebhookService.WebhookService.UpdateRow | services/webhook/src/deliveries/deliveries.repository.ts:107-149 | status, note and one more attempt on an existing row |
| WebhookService.WebhookService.MarkDeadWithLetter | services/webhook/src/deliveries/deliveries.repository.ts:151-176 | status and letter change together or not at all |
| WebhookService.WebhookService.HandleFailure | services/webhook/src/deliveries/delivery.processor.ts:115-172 | the first four attempts mark the row failed with the cause, write no letter and throw; the fifth makes the row dead with a letter of this attempt and cause and returns, or changes nothing and throws; if the write's answer is lost the row may be dead and the job still throws |
| WebhookService.WebhookService.Process | services/webhook/src/deliveries/delivery.processor.ts:37-173 | process is a part of a run, and the queue's record of the job is what its end makes of it |
| WebhookService.WebhookService.RetryDelivery | services/webhook/src/deliveries/deliveries.service.ts:102-136 | unknown exactly if the merchant has no such delivery, and then nothing happens; otherwise the new job is queued unless the add failed before taking effect |
| KeyCacheProtocol.KeyValidationCacheTtl | services/auth/internal/service/key_service.go:197-211 | positive, at most 30 seconds and at most what is left of the key's life; one second once the key has expired |
| KeyCacheTheorems.CacheIsNotTooStale | services/auth/internal/service/key_service.go:60-211 | no cache hit 30 seconds plus the longest check-to-write delay after a revocation committed, nor one second plus that delay after expiry; a hit names the key's own merchant and scope |
| KeyCacheTheorems.StalenessIsReached | services/auth/internal/service/key_service.go:213-283 | for every delay a run accepts a revoked key up to the last nanosecond of that bound, although the cache entry was deleted in time |
| KeyCacheTheorems.RevokedIsRejectedAfresh | services/auth/internal/service/key_service.go:103-130 | a validation past the cache that has yet to read the key row when the key is revoked is never accepted |
| KeyAnswers.AnswerHasReason | services/auth/internal/service/key_service.go:60-195 | over every run each answer has its reason in one call: a live cache entry or the row read before, no row or an inactive or expired one, a listed hash, or a failed call |
| KeyAnswers.ReasonAnswers | services/auth/internal/service/key_service.go:60-195 | and each such call does end the validation with that answer |
| KeyAnswers.LiveKeyIsAccepted | services/auth/internal/service/key_service.go:103-195 | a validation that began when its key was there and whose calls do not fail accepts it under its own merchant and scope, if the key is active and not expired at the end |
| KeyAnswers.RevocationHasReason | services/auth/internal/service/key_service.go:213-283 | a revocation is told not found only if there is no such key, and fails only if a call of it failed or the hash was listed already |
| KeyCacheTheorems.HitAndMissAgree | services/auth/internal/service/key_service.go:74-195 | over every run a cache hit and a validation that goes past the cache name the same merchant and scope for a key |
| KeyScopes.GatewayGrantsWhatKeyWasCreatedWith | services/auth/internal/handler/key.go:39-45 | over every run the scope that an accepted validation reports, from the cache or not, authorizes at the gateway exactly what the normal form of the scope asked for at the creation of the key does |
| KeyCacheTheorems.StepKeepsInvariant | services/auth/internal/service/key_service.go:60-283 | every step keeps what the bounds rest on |
| KeyService.KeyService.IsRevoked | services/auth/internal/service/key_service.go:44-58 | tells whether the hash is on the revocation list, or fails |
| KeyService.KeyService.ValidateKey | services/auth/internal/service/key_service.go:60-195 | the whole validation is a part of a run; it accepts a key only under its own merchant and scope, and never when asked beyond the staleness bounds; every answer has its reason in the run |
| KeyService.KeyService.LoadActive | services/auth/internal/service/key_service.go:110-135 | errored exactly if the read failed, invalid exactly if there is no active row, otherwise the row's own merchant and scope |
| KeyService.KeyService.StoreEntry | services/auth/internal/service/key_service.go:150-180 | the entry names the key's merchant and scope and dies when the time to live is over, in whole milliseconds and at least one |
| KeyService.KeyService.DeleteEntry | services/auth/internal/service/key_service.go:258-283 | the cache entry is gone if the call took effect, and nothing else is |
| KeyService.KeyService.CommitRevocation | services/auth/internal/service/key_service.go:232-256 | the next state has the row inactive and the hash listed, or neither; success is reported only for the former, and a hash that is listed already is refused |
| KeyService.KeyService.RevokeKey | services/auth/internal/service/key_service.go:213-283 | success means the row is inactive and the hash listed, whether or not the cache entry could be deleted; every answer has its reason in the run |
| RateLimit.PruningIsInvisible | services/gateway/src/guards/rate-limit.guard.ts:69-108 | while the clock does not run back every request gets the answer of a limiter that never prunes |
| RateLimit.WindowIsBounded | services/gateway/src/guards/rate-limit.guard.ts:28-83 | no half-open interval of one window's length admits more than 2 * maxRequests - 1 requests of a key |
| RateLimit.WindowBoundIsReached | services/gateway/src/guards/rate-limit.guard.ts:28-83 | for every configuration and interval some run admits that many |
| RateLimit.RemainingIsTruthful | services/gateway/src/guards/rate-limit.guard.ts:43-49 | after an admitted request exactly as many more at once are admitted as the header says |
| RateLimit.ResetIsTruthful | services/gateway/src/guards/rate-limit.guard.ts:69-83 | a refused key is refused until the end of its bucket's window and admitted from then on |
| RateLimitGuard.RateLimitGuard.Prune | services/gateway/src/guards/rate-limit.guard.ts:98-108 | below ten thousand buckets none, from there on exactly the expired ones are deleted |
| RateLimitGuard.RateLimitGuard.CurrentBucket | services/gateway/src/guards/rate-limit.guard.ts:69-83 | the running bucket, or a new one that its own prune may already have dropped |
| RateLimitGuard.RateLimitGuard.CanActivate | services/gateway/src/guards/rate-limit.guard.ts:28-67 | answer, headers and the map's new contents are those of the value-level step; counting happens in place |
| RateLimitGuard.CeilSeconds | services/gateway/src/guards/rate-limit.guard.ts:49-53 | the least number of seconds not below the given milliseconds |
| ScopeNormalizer.NormalizeScope | services/auth/internal/service/scopes.go:21-46 | the loop computes the declared normal form or reports the first item not allowed |
| Scopes.SplitScopes | services/auth/internal/service/scopes.go:48-60 | the non-empty trimmed lower-case items in order |
| ScopeText.AuthSeparators | services/auth/internal/service/scopes.go:48-60 | scopes are separated at commas, spaces, tabs and line ends, and at no other character |
| ScopeText.CaseAndPaddingDoNotMatter | services/auth/internal/service/scopes.go:48-60 | neither the case of a scope nor white space around it matters |
| ScopeText.FirstOtherDecidesScope | services/auth/internal/service/scopes.go:21-46 | the first item that is not one of the eight names decides: full makes the scope full whatever comes after, anything else is reported, and without one the scope is accepted |
| ScopeText.GatewaySeparators | services/gateway/src/guards/auth.guard.ts:207-221 | the gateway separates at the same characters and grants what either item grants |
| ScopeTheorems.NormalFormIsFaithful | services/auth/internal/service/scopes.go:21-46 | the normal form is sorted, free of repetition, and both readers read back exactly what the input's items mean |
| ScopeTheorems.NormalFormIsFixed | services/auth/internal/service/scopes.go:21-46 | a normal form is its own normal form |
| ScopeTheorems.NormalFormIsCanonical | services/auth/internal/service/scopes.go:21-46 | two accepted inputs have the same normal form exactly when their items mean the same |
| ScopeTheorems.NormalFormIsShort | services/auth/internal/service/scopes.go:9-19 | a normal form has at most 99 characters and fits its column |
| ScopeTheorems.LongestNormalForm | services/auth/internal/service/scopes.go:9-19 | and 99 is reached |
| ScopeTheorems.FieldsOfJoin | services/auth/internal/service/scopes.go:48-51 | splitting a printed list by the auth service's rule gives the list back |
| ScopeTheorems.PiecesOfJoin | services/gateway/src/guards/auth.guard.ts:211-214 | so does splitting it by the gateway's |
| ScopeTheorems.GatewayGrantsWhatWasAsked | services/gateway/src/guards/auth.guard.ts:207-221 | for every list of required scopes the gateway grants on the normal form exactly what the accepted items grant |
| ScopeTheorems.AuthorizedIff | services/gateway/src/guards/auth.guard.ts:93-113 | a key with an accepted scope passes a route exactly if the route needs nothing or the items grant what it needs |
| AccessTable.AuthorizedBySingle | services/gateway/src/guards/auth.guard.ts:93-113 | a key with a single scope other than full and admin passes a route exactly if the route is unguarded or asks for that scope |
| AccessTable.RouteAccess | services/gateway/src/guards/auth.guard.ts:172-205 | on every guarded path the area's write scope passes for every verb; its read scope passes exactly on balances, and on payments and webhooks for GET |
| AccessTable.SpecialAccess | services/gateway/src/guards/auth.guard.ts:93-113 | full and admin pass everywhere, no scope at all only where nothing is asked for |
| AccessTable.OneAreaPerScope | services/gateway/src/guards/auth.guard.ts:172-205 | whatever the scope, such a key is good for the guarded routes of one area at most |
| AccessTable.WriteCoversRead | services/gateway/src/guards/auth.guard.ts:172-205 | for every area, the write scope passes wherever the read scope does |

## Left out

- HTTP handlers, wiring, configuration, logging, metrics and tracing.
- The ticker that starts recovery runs: any number of them start at any time.
- Listing, pagination, single reads and response formatting.
- SHA-256, HMAC signatures, secret encryption and JSON: keys and payloads are values; whether a Kafka
  message carries a valid signature is a field of the message.
- Timestamps of rows, journal entry ids and descriptions, `last_used_at`, and the 24-hour expiry of
  idempotency records, which no read checks.
- Column lengths: a value too long for its column is one more way for a call to fail.
- The route that posts events straight to the ledger. The ledger's own theorems hold for any event
  from anyone; the end-to-end ones speak of events from the log.
- The webhook consumer's checks before `dispatch` (empty, unsigned or malformed messages are skipped).
- Retries of the consumer's startup, the topic list, and the back-off delays of the queue.
- The text of a response or error: a note holds it as a symbol, cut to no length; "endpoint_inactive"
  is a note of its own.
- URL checks before a webhook is posted: a blocked address is one way for the post to fail.
- How often the queue hands a job out again after its worker died is not limited, though BullMQ limits it.
- Which bucket a request counts in (merchant, credentials or address) and which paths are exempt from
  the limit: both are inputs.
- A rate limit or window that is not a number: the limits are integers.
- sort.Strings is a function with its meaning proved, not the library's algorithm.
- Lower-casing is exact for the characters that scope names consist of; other characters are left alone,
  which no result depends on, since no name contains them.
- `WebhookService.WebhookService.Dispatch`: leaves out the upgrade of stored plain-text secrets that
  reading an endpoint may cause.
- `PaymentService.PaymentService.PollForResults`: leaves out how long the delays between lookups are.
- The equality of replayed responses: a declined payment answers an error first and the payment later.
- The equality of cache and record: a slow reader may put an older record back into the cache, which
  `PaymentTheorems.IdempotentIdentity` allows for.
