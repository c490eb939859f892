# A verified model of the payment pipeline

The project models a payment service: an API that accepts submissions under idempotency keys, a
transactional outbox, a relay that publishes it to a job queue, workers that claim a payment, call a
bank and settle or retry, a reaper for stuck payments, and a dispatcher that fans terminal events out
to webhooks. The design promises at-least-once delivery with an exactly-once effect. The project
proves what that promise amounts to in every reachable state and every run, and states exactly where
it does not hold.

## How it is organised

| file | contents |
|---|---|
| `Pipeline.dfy` | the concurrent step system: any number of submitters, relays, workers and reapers, duplicate jobs, stale workers, late bank answers, crashes between any two steps |
| `Tables.dfy`, `Histories.dfy` | the shared tables, each transaction as one atomic function, and what an audit trail implies |
| `PipelineInvariant.dfy`, `PipelineSteps.dfy` | the inductive invariant and its preservation by every step |
| `PipelineTheorems.dfy`, `Recovery.dfy`, `LateCharges.dfy` | the promises: safety over runs, which payments can still end, and which can still be charged |
| `Services.dfy`, `Refinement.dfy` | the services as objects that update tables, queue, bank and breaker step by step, each proved to do its transaction, and a call of `process` and a tick of the relay or the reaper, undisturbed, proved to be paths of the step system |
| `Notifications.dfy` | the dispatcher beside the whole pipeline |
| `Deliveries.dfy`, `Webhooks.dfy` | one delivery's rows, writes, job ids and services; webhook delivery as a concurrent step system with read, POST, write and enqueue of a call apart |
| `WebhookCounts.dfy`, `SingleDriving.dfy`, `WebhookOutcomes.dfy`, `WebhookRuns.dfy` | what attempts say about POSTs; when a delivery has a single driver and what that guarantees; which rows are final and which can be delivered; particular runs |
| `EndToEnd.dfy` | pipeline, dispatcher and webhook system composed |
| `Bank.dfy`, `Breaker.dfy`, `Backoff.dfy`, `Money.dfy`, `JobIds.dfy`, `Pagination.dfy`, `Statuses.dfy` | the smaller components |
| `Common.dfy` | options, names, decimal numerals |

Locals that a process carries from one transaction to the next are part of the state: the status read
before the compare-and-swap, the open bank call, the disposition, the attempt to enqueue. A job whose
claim did nothing still calls the bank and still tries to settle, as in the code, because the returns
of the first transaction leave only the transaction.

## Assumptions

- One bank stands behind all workers. An operator may reconfigure it at any time.
- Generated ids are fresh, and as texts they are distinct and contain no colon.
- Job ids of the payments queue stay taken after a job ends (that queue keeps its default options);
  the webhooks queue evicts ended jobs.
- A crashed worker's job returns to waiting. A call of `process` that raises an error leaves its job
  failed; a job that the queue itself fails after repeated stalls is treated the same way.
- A transaction is atomic; rows locked by one relay tick are skipped by the others. Staleness
  deadlines, batch sizes and the breaker's decision are free choices in the step system, so its theorems
  hold for every choice.
- The retry budget is any natural number, the breaker's threshold and the webhook attempts are at
  least 1, and the breaker's clock does not run backwards where its timing is concerned.
- Outbox retention never drops a row that is unpublished or undispatched.
- An empty idempotency key counts as a missing one. Request hashes are compared for equality only.
- A rounding of integers to doubles is monotone and exact up to 2^53
  (section 4.3 of IEEE 754-2019).

## Where the code differs from its documentation

- README.md:27 says no payment is lost. An error that escapes the first transaction before its claim
  leaves the job failed; its id stays taken and nothing reaps PENDING rows, so the payment can never
  end. A payment is recoverable exactly when this has not happened to it, and it is always recoverable
  in runs without such an error (`Recovery.RecoverableIffNotStranded`,
  `Recovery.NothingIsLostWithoutEarlyErrors`, `Recovery.StrandingHappens`).
- docs/adr/008-webhook-delivery.md:13 says the worker emits terminal events. A payment that fails by
  exhausting its retries gets no outbox row, so no endpoint ever hears of it
  (`PipelineTheorems.EmitsExactlyOnce`, `Notifications.ExhaustionIsSilent`).
- A FAILED payment can be charged afterwards, in two ways. A timed-out bank call is abandoned, not
  cancelled. And a call of `process` that claims nothing still asks the bank, so any job of the payment
  that is left or redelivered charges it. A FAILED, uncharged payment stays so in every run exactly when
  no call for it is open, no call of `process` is on its way to the bank or about to enqueue, none of its
  jobs waits or is active, and no reaper holds its order (`LateCharges.FailedStaysUnchargedIffSpent`,
  `LateCharges.NeverChargedIff`, `LateCharges.ChargedButFailedHappens`,
  `LateCharges.RedeliveryChargesFailedPayment`). A charged payment can be brought to COMPLETED exactly
  when it has not FAILED (`Recovery.ChargedCompletesUnlessFailed`).
- The currency of a submission is dropped: the row is always USD
  (`PipelineTheorems.CurrencyHonouredIffUsd`; apps/api/src/database/schema.ts:20).
- `convUnitsToAmount` drops the sign, so it is inverted by parsing exactly for non-negative amounts
  (`Money.ParseAfterPrint`, `Money.ConversionsRoundTrip`).
- A granted probe that ends in an error other than a timeout records nothing; the breaker then stays
  HALF-OPEN and refuses for ever (`Breakers.CanGrantIffNotWedged`, `Breakers.WedgeHappens`). The
  simulated bank raises no such error, so this concerns other implementations of the bank port.
- The webhook processor's final write checks nothing, so a call that is still under way can rewrite a
  delivered or dead row. Such a row is final exactly when no call under way would write something else
  (`WebhookOutcomes.FinalIffQuiet`, `WebhookRuns.DeliveredIsOverwritten`).
- The maximum bounds the recorded attempts, not the POSTs. Attempts never exceed the POSTs made, and equal
  them exactly when no failure was written from outdated attempts, no call ended between its POST and its
  write, and none is there now (`WebhookCounts.AttemptsCountPosts`). A POST can succeed and its delivery
  still go dead (`WebhookRuns.DeadAfterSuccess`).
- Dispatcher, processor and reaper all enqueue after their commit. Driving stays single throughout a run
  exactly when no such enqueue came after a later write of its row and found its id free, no job was
  redelivered beside its call, and no call crashed between its write and its return
  (`SingleDriving.SingleIffOrderly`). Each of the three enqueues can come too late
  (`WebhookRuns.ReaperDoublesDrivers`, `WebhookRuns.DispatcherDrivesDelivered`,
  `WebhookRuns.ProcessorDrivesDelivered`).

## Model

| member | source | states |
|---|---|---|
| `PipelineSteps.StepKeepsInv` | apps/api/src/worker/payment.processor.ts:43-271 | every step of every process keeps the invariant that joins tables, queue, open calls, worker locals and bank |
| `PipelineTheorems.EveryStepIsOneEdge` | packages/shared/src/index.ts:5-26 | in a reachable state any step leaves a payment alone or moves it along one edge of the transition map, with one audit event and one version |
| `PipelineTheorems.AuditTrail` | apps/api/src/worker/payment.processor.ts:53-92 | the events of a payment are an unbroken legal path from null→PENDING to its status; version, attempt count, last error and the bound on their number follow from it |
| `Histories.LegalLength` | apps/api/src/worker/payment.processor.ts:156-201 | the length of a trail is twice its retries plus a constant of its last status |
| `Histories.LegalBound` | apps/api/src/relay/reaper.service.ts:78-96 | at most 3 + 2·MAX_RETRIES events plus two per reap |
| `PipelineTheorems.RetryLedger` | apps/api/src/worker/payment.processor.ts:156-217 | worker retries carry strictly increasing attempts within the budget, every RETRYING event is one of them or a reap, and all delays drawn for one payment stay within one full set of retries |
| `PipelineTheorems.TerminalIsFrozen` | apps/api/src/worker/payment.processor.ts:226-244 | after COMPLETED or FAILED no run changes the row, its trail or its terminal outbox rows |
| `PipelineTheorems.EmitsExactlyOnce` | apps/api/src/worker/payment.processor.ts:254-268 | a terminal outbox row exists exactly for payments that ended through txn 2; it is unique and agrees with the row |
| `PipelineTheorems.ChargedExactlyOnce` | apps/api/src/bank/simulated-bank.adapter.ts:21-59 | charges, store and ledger agree in size, no payment is charged twice, each charge has the row's amount, and a COMPLETED payment was charged under the reference in its last event |
| `PipelineTheorems.ChargesArePermanent` | apps/api/src/bank/simulated-bank.adapter.ts:26 | over any run a stored outcome stays and the ledger only grows |
| `PipelineTheorems.SubmissionFollowsForm` | apps/api/src/payments/payments.service.ts:31-83 | which answer a submission gets, by key, amount and known keys; an accepted one stores the cents its amount text denotes, the form's customer, accounts and reference, in USD, PENDING at version 0, with its event, idempotency row and outbox row |
| `PipelineTheorems.ChargedAsSubmitted` | apps/api/src/worker/payment.processor.ts:101-106 | over any run from an acceptance on, the row keeps the form's parties, and every charge, bank request, job and outbox row of the payment is exactly the amount the form's text denotes |
| `PipelineTheorems.AmountsAgree` | apps/api/src/worker/payment.processor.ts:101-106 | every job, call of `process`, bank request, outbox payload and pending reap carries exactly the cents and currency of its payment's row |
| `PipelineTheorems.AmountIsPermanent` | apps/api/src/payments/payments.service.ts:33-81 | no run changes the amount of a payment |
| `PipelineTheorems.SubmissionIsNeverLost` | apps/api/src/relay/relay.service.ts:47-77 | each payment has exactly one submission row, marked only if its job was added, and the job does not complete while the payment is PENDING |
| `PipelineTheorems.MarkPublishesExactly` | apps/api/src/relay/relay.service.ts:68-74 | a relay's mark sets published on exactly its own rows and changes nothing else |
| `PipelineTheorems.PublishedIsNeverSelected` | apps/api/src/relay/relay.service.ts:50-54 | over any run a published row is selected by no relay again |
| `PipelineTheorems.PendingJobFailsOnlyBeforeClaim` | apps/api/src/worker/payment.processor.ts:53-72 | a job of a PENDING payment becomes failed only by an error before the claim |
| `PipelineTheorems.RetryIsNeverDropped` | apps/api/src/worker/payment.processor.ts:212-217 | whenever a retry is enqueued its id is free, so exactly that job is added |
| `PipelineTheorems.RetryIsAddedOnce` | apps/api/src/worker/payment.processor.ts:212-217 | no later enqueue of the same payment, in any run, has the same attempt |
| `PipelineTheorems.OneSubmissionPerPayment` | apps/api/src/payments/payments.service.ts:56-63 | each payment belongs to exactly one (customer, key), whose stored body is the row as inserted, and has one PENDING event, its first |
| `PipelineTheorems.ReplaysAreStable` | apps/api/src/payments/payments.service.ts:93-127 | after any run a repeated key changes nothing: the same hash gets the first body, another conflicts |
| `PipelineTheorems.AcceptedAtMostOnce` | apps/api/src/payments/payments.service.ts:56-63 | over any run a (customer, key) is accepted at most once, and exactly if it is known afterwards |
| `PipelineTheorems.FirstResponseIsReplayed` | apps/api/src/payments/payments.service.ts:82-126 | after any run from an acceptance on, the same hash is answered with the body of that first response, another conflicts, and nothing changes |
| `PipelineTheorems.RunKeeps` | apps/api/src/worker/payment.processor.ts:43-271 | over any run the invariant holds and payments, replay bodies, outbox rows, jobs and charges persist |
| `Recovery.RecoverableIffNotStranded` | apps/api/src/relay/reaper.service.ts:54-111 | a payment that has not ended can be driven to an end by relays, reapers, workers and the bank exactly when it is not stranded |
| `Recovery.NothingIsLostWithoutEarlyErrors` | apps/api/src/relay/reaper.service.ts:54-111 | in every run whose errors come after the claim, whatever crashes, each payment has ended or can be driven to an end |
| `Recovery.CompletableIff` | apps/api/src/worker/payment.processor.ts:94-144 | an open payment can be driven to COMPLETED by relays, reapers, workers and the bank alone exactly when it is not stranded and was charged already or the bank is not in a mode that always refuses; failures still to be counted and the retry budget do not matter |
| `Recovery.ChargedCompletesUnlessFailed` | apps/api/src/bank/bank.timeout.ts:7-16 | a charged payment can reach COMPLETED exactly when it is not FAILED |
| `Recovery.StrandedForever` | apps/api/src/queue/queue.module.ts:13-14 | no run, with crashes and operators included, rescues a stranded payment |
| `Recovery.ThrowBeforeClaimStrands` | apps/api/src/worker/payment.processor.ts:53-72 | one error before the claim of its only call strands a payment |
| `Recovery.StrandingHappens` | apps/api/src/worker/payment.processor.ts:53-72 | a stranded payment is reachable under every retry budget |
| `LateCharges.FailedStaysUnchargedIffSpent` | apps/api/src/worker/payment.processor.ts:53-106 | a FAILED, uncharged payment stays uncharged in every run exactly when no open call, call of `process` before the bank or about to enqueue, waiting or active job, or reaper for it is left |
| `LateCharges.NeverChargedIff` | apps/api/src/worker/payment.processor.ts:53-106 | an uncharged payment of any status is never charged exactly when it is stranded, or FAILED and spent |
| `LateCharges.ReachableSubmissionsAdded` | apps/api/src/relay/relay.service.ts:66 | a payment that has left PENDING has its submission's job in the queue |
| `LateCharges.UnspentIsChargeable` | apps/api/src/worker/payment.processor.ts:94-106 | whatever is left of a payment in the system can charge it, also after it FAILED |
| `LateCharges.RedeliveryChargesFailedPayment` | apps/api/src/worker/payment.processor.ts:170-190 | under every retry budget a payment can fail without any bank call, and be charged by its redelivered job |
| `LateCharges.LateChargeOfFailedPayment` | apps/api/src/bank/bank.timeout.ts:7-16 | from any call open on the last attempt the payment can fail and the charge land afterwards |
| `LateCharges.ChargedButFailedHappens` | apps/api/src/bank/bank.timeout.ts:7-16 | a charged and FAILED payment is reachable under every retry budget |
| `Tables.ReapKeepsTables` | apps/api/src/relay/reaper.service.ts:52-100 | the reaper's transaction keeps rows, trails, outbox and idempotency sound, moves exactly the locked PROCESSING rows to RETRYING with count and event, and leaves every other row |
| `Tables.RetryKeepsTables` | apps/api/src/worker/payment.processor.ts:147-210 | the retry transaction with its budget keeps the tables sound, moves its payment by at most one edge, and leaves every other row and trail |
| `Tables.FinaliseKeepsTables` | apps/api/src/worker/payment.processor.ts:226-268 | txn 2 keeps the tables sound, including that its outbox row is the payment's only terminal one, moves its payment by at most one edge, and leaves every other row and trail |
| `Tables.ClaimKeepsTables` | apps/api/src/worker/payment.processor.ts:58-86 | the claim from a status read earlier keeps the tables sound, moves its payment by at most one edge, and leaves every other row and trail |
| `Tables.SubmitKeepsTables` | apps/api/src/payments/payments.service.ts:35-131 | a submission, replayed or not, keeps the tables sound and leaves every row and trail that was there |
| `Histories.RetryAttemptIsNew` | apps/api/src/worker/payment.processor.ts:154-201 | a retry that is to be scheduled has an attempt number within the budget and above every one recorded before |
| `Services.PaymentsService.InsertTxn` | apps/api/src/payments/payments.service.ts:24-132 | inserts in order, with rollback on the unique violation, equal the atomic submission |
| `Services.RelayService.PollOnce` | apps/api/src/relay/relay.service.ts:45-73 | a tick adds the jobs of its rows in order, then each of its rows is published and every other row as it was |
| `Services.AddSubmissionsIsExact` | apps/api/src/relay/relay.service.ts:66 | after a tick's adds each row has its job, old jobs are untouched, and each new job is a row's with its payload |
| `Services.ReaperService.ReapOnce` | apps/api/src/relay/reaper.service.ts:50-112 | a tick does the reaper's transaction on its rows and then enqueues one re-drive for each with the amounts read |
| `Services.AddReapsIsExact` | apps/api/src/relay/reaper.service.ts:105-111 | after the re-drives each claimed payment has its job of this instant, old jobs are untouched, and each new job carries its payment's amount |
| `Services.ReapsCarryOldOrders` | apps/api/src/relay/reaper.service.ts:105-111 | the transaction does not change what the re-drives carry |
| `Services.PaymentProcessor.Txn1` | apps/api/src/worker/payment.processor.ts:53-92 | read, check, compare-and-swap and audit equal the claim from the current status |
| `Services.PaymentProcessor.RetryOrExhaust` | apps/api/src/worker/payment.processor.ts:147-210 | equals the retry transaction and reports the attempt to schedule |
| `Services.PaymentProcessor.Finalise` | apps/api/src/worker/payment.processor.ts:226-270 | equals txn 2 with its outbox row |
| `Services.PaymentProcessor.Process` | apps/api/src/worker/payment.processor.ts:43-271 | a whole call on tables, queue, bank and breaker; a new job is a retry with exactly the jittered delay of its attempt |
| `Refinement.ProcessIsAPath` | apps/api/src/worker/payment.processor.ts:43-271 | an undisturbed call ends in the tables, queue and bank of some path of the step system |
| `Refinement.RelayTickIsAPath` | apps/api/src/relay/relay.service.ts:45-73 | an undisturbed tick on its locked rows ends in the tables and queue of some path of the step system, with each of its rows published and not selectable |
| `Refinement.ReaperTickIsAPath` | apps/api/src/relay/reaper.service.ts:50-112 | the same for a tick of the reaper |
| `Refinement.OutcomeDecides` | apps/api/src/worker/payment.processor.ts:94-270 | what an undisturbed call makes of a claimable payment: authorized gives COMPLETED, declined or a final error FAILED, each with its event and outbox row; a retryable error, a refused call or a late answer gives RETRYING with its job within the budget, else FAILED without an outbox row |
| `Refinement.BreakerHearsRetries` | apps/api/src/worker/payment.processor.ts:96-144 | a refused call asks nobody; any other asks the bank once and reports a failure exactly when it is to be tried again |
| `Refinement.AnswerDecides` | apps/api/src/worker/payment.processor.ts:109-142 | in the step system, which disposition each answer, a timeout and a refusal lead to |
| `Refinement.VerdictCommits` | apps/api/src/worker/payment.processor.ts:226-268 | a verdict gives a payment in PROCESSING its status, event and outbox row, and any other nothing |
| `Refinement.RetryCommits` | apps/api/src/worker/payment.processor.ts:147-210 | a retry gives a payment in PROCESSING its count, last error and event: RETRYING within the budget, FAILED beyond it, no outbox row |
| `Refinement.LeavingMovesJob` | apps/api/src/queue/queue.module.ts:13 | a call that returns completes its own job, one that raises an error fails it, one that crashes has it wait again; no other job changes |
| `Refinement.AloneNeverStrands` | apps/api/src/worker/payment.processor.ts:94-222 | an undisturbed call never leaves a claimable payment in PROCESSING; it completes exactly when granted, in time and authorised |
| `Banks.AuthorizeKeepsBalance` | apps/api/src/bank/simulated-bank.adapter.ts:21-59 | an evaluation keeps the balance, authorises only from the store, and charges exactly when it stores a new key |
| `Banks.SimulatedBankAdapter.AuthorizeRequest` | apps/api/src/bank/simulated-bank.adapter.ts:21-59 | the adapter's new state and answer |
| `Banks.SimulatedBankAdapter.Configure` | apps/api/src/bank/simulated-bank.adapter.ts:61-66 | a new mode resets the failure counter, the rest is set if given |
| `Banks.BankConfigSync.Tick` | apps/api/src/bank/bank-config-sync.service.ts:48-55 | the row is applied exactly when it is newer than the last one seen; without a row nothing changes |
| `Banks.ConfigHolds` | apps/api/src/bank/bank-config-sync.service.ts:48-55 | a newer row sets mode, failN and latency, and they stay until a newer one comes |
| `Banks.AnswersSinceConfig` | apps/api/src/bank/simulated-bank.adapter.ts:21-59 | how the bank answers since it was configured: a stored outcome again; otherwise always authorised, declined, a retryable error, or in fail-n mode authorised exactly for the last request of each cycle; what each stores and charges |
| `Banks.FailNCycle` | apps/api/src/bank/simulated-bank.adapter.ts:40-59 | after k uncached requests in fail-n mode, among any ticks of an unchanged row, k div (failN+1) were charged and the counter is k mod (failN+1) |
| `Banks.FailNCycleSinceConfig` | apps/api/src/bank/bank-config-sync.service.ts:48-55 | the same counted from any applied newer fail-n row, whatever the bank's state was before |
| `Breakers.CircuitBreaker.AllowCall` | apps/api/src/bank/circuit-breaker.ts:11-34 | answer and new state, by state and time since opening |
| `Breakers.CircuitBreaker.RecordResult` | apps/api/src/bank/circuit-breaker.ts:40-57 | new state, by state and failures so far |
| `Breakers.FailuresAreTheTrailingRun` | apps/api/src/bank/circuit-breaker.ts:40-57 | the counter is the trailing run of recorded failures, and the breaker is CLOSED exactly when it is below the threshold |
| `Breakers.GrantsExactlyTheEntitled` | apps/api/src/bank/circuit-breaker.ts:11-57 | after any history a question is granted exactly while the trailing failures are below the threshold, or as the first one at or after OPEN_MS from the latest failure; openedAt is that failure's instant |
| `Breakers.RefusedOnlyAfterThreshold` | apps/api/src/bank/circuit-breaker.ts:11-34 | a refusal implies a trailing run of at least the threshold |
| `Breakers.GrantsSpaced` | apps/api/src/bank/circuit-breaker.ts:18-27 | after any history that left it not CLOSED, grants without a success are at least OPEN_MS apart |
| `Breakers.ProbesPerWindow` | apps/api/src/bank/circuit-breaker.ts:18-27 | hence at most W div OPEN_MS + 1 of them in a window of W |
| `Breakers.HalfOpenHasProbe` | apps/api/src/worker/payment.processor.ts:96-144 | with interleaved workers whose calls all answer or time out, HALF-OPEN implies an outstanding call |
| `Breakers.CanGrantIffNotWedged` | apps/api/src/worker/payment.processor.ts:134-144 | some continuation is granted a call exactly when the breaker is not HALF-OPEN with no call outstanding |
| `Breakers.WedgeHappens` | apps/api/src/worker/payment.processor.ts:134-144 | under all limits some run from a new breaker wedges it |
| `Backoff.DelayInBand` | apps/api/src/worker/backoff.ts:3-9 | the delay exists exactly for attempts from 1 on and lies between half the exponential and the exponential |
| `Backoff.DelayIs` | apps/api/src/worker/backoff.ts:7-8 | the exponential is the smaller of BASE·2^(attempt − 1) and CAP, and the delay half of it plus half of it times the draw |
| `Backoff.JitterCoversBand` | apps/api/src/worker/backoff.ts:8 | every delay from half the exponential up to the whole is drawn by some jitter |
| `Backoff.ExpNondecreasing` | apps/api/src/worker/backoff.ts:7 | the capped exponential does not decrease in the attempt |
| `Backoff.TotalDelayBounded` | apps/api/src/worker/backoff.ts:3-9 | strictly increasing attempts within the budget schedule at most the sum of all exponentials |
| `Backoff.RetryBudget` | apps/api/src/worker/backoff.ts:7 | that sum is at most MAX_RETRIES·CAP and at most BASE·(2^MAX_RETRIES − 1) |
| `JobIds.RenderInjective` | apps/api/src/worker/payment.processor.ts:215 | the texts of two job ids are equal exactly when the ids are |
| `JobIds.RenderReadsBack` | apps/api/src/relay/reaper.service.ts:109 | from the text of a retry or reap id the payment's id, the kind and the number can be read back; a submission's is its outbox id |
| `Statuses.MapShape` | packages/shared/src/index.ts:5-11 | the terminal statuses are exactly those without exit; nothing enters PENDING; PROCESSING is the only way to the others |
| `Money.MatchIsExact` | packages/shared/src/index.ts:31-35 | the matcher yields two groups exactly when the text has the pattern's form with them |
| `Money.ParsesExactly` | packages/shared/src/index.ts:28-43 | which texts are amounts and of how many cents: at most 20 characters, the pattern's form, at most 2^53 − 1 cents, one fraction digit standing for tenths; which error each other text gets |
| `Money.TrailingZerosDoNotCount` | packages/shared/src/index.ts:37 | d, d.0 and d.00 denote one amount, and so do d.x and d.x0 |
| `Money.DoublesParseExactly` | packages/shared/src/index.ts:28-43 | under every rounding the guard accepts exactly the amounts whose true value is a safe integer, and the result is exact |
| `Money.ParseAfterPrint` | packages/shared/src/index.ts:47-57 | parsing a printed safe amount gives its magnitude, hence the amount exactly when it is non-negative |
| `Money.PrintAfterParse` | packages/shared/src/index.ts:28-57 | printing a parsed amount gives the canonical text of what was parsed |
| `Money.SameAmountIffSameCanonical` | packages/shared/src/index.ts:28-57 | two accepted texts denote one amount exactly when their canonical texts are equal |
| `Money.ConversionsRoundTrip` | packages/shared/src/index.ts:28-57 | under every rounding a safe number is printed exactly if whole, and parsed back to itself exactly if whole and not negative |
| `Notifications.OneDeliveryPerActiveEndpoint` | apps/api/src/webhooks/webhooks-dispatcher.service.ts:47-84 | an event has one delivery for each endpoint active when it was dispatched and none otherwise |
| `Notifications.NotifiedAtMostOnceWithFinalStatus` | apps/api/src/webhooks/webhooks-dispatcher.service.ts:63-76 | an endpoint has at most one delivery per payment, with the final status, type and amount |
| `Notifications.ExhaustionIsSilent` | apps/api/src/worker/payment.processor.ts:170-190 | a payment that exhausted its retries never gets a delivery |
| `Notifications.TerminalEventsAreDispatchable` | apps/api/src/webhooks/webhooks-dispatcher.service.ts:50-60 | every completed or failed event that is not dispatched can be taken by a tick, to exactly the endpoints active then |
| `Notifications.DispatchIsPermanent` | apps/api/src/webhooks/webhooks-dispatcher.service.ts:79-81 | dispatch marks, their endpoints and delivery contents survive every run |
| `Notifications.DispatchKeepsUnique` | apps/api/src/database/schema.ts:88 | a dispatch adds no second row for an (event, endpoint), so the unique constraint is never hit |
| `Notifications.ProductIsFan` | apps/api/src/webhooks/webhooks-dispatcher.service.ts:63-76 | the nested iteration yields exactly one row for each event and endpoint |
| `Notifications.WebhookDispatcherService.PollOnce` | apps/api/src/webhooks/webhooks-dispatcher.service.ts:45-98 | a tick is one dispatch step of the composed system, and exactly its rows are to be enqueued |
| `Webhooks.AttemptsFitStatus` | apps/api/src/webhooks/webhook.processor.ts:25-112 | in every reachable state, whatever stale writers do: pending exactly with 0 attempts, failed 1 to MAX−1, dead MAX |
| `Webhooks.StepKeepsSound` | apps/api/src/webhooks/webhook.processor.ts:23-122 | every step of every process keeps rows, snapshots, enqueues to come and active jobs consistent with the history of writes and POSTs |
| `WebhookCounts.AttemptsCountPosts` | apps/api/src/webhooks/webhook.processor.ts:51-112 | in every reachable state attempts never exceed POSTs, and equal them exactly when no write was stale, no call was lost after its POST and none is between POST and write; delivered had a success, dead at least MAX POSTs |
| `SingleDriving.SingleIffOrderly` | apps/api/src/webhooks/webhook-reaper.service.ts:60-99 | over every run, all states have a single driver per open delivery and none per ended one exactly when no enqueue was overtaken and found its id free, no job was redelivered beside its call, and no call crashed between write and return |
| `SingleDriving.StepKeepsSingleIff` | apps/api/src/webhooks/webhook.processor.ts:106-121 | the same for one step from a history of single driving |
| `SingleDriving.SingleMeansOne` | apps/api/src/queue/queue.module.ts:9-15 | single driving means at most one call per delivery that may still POST or write, and no waiting job beside it |
| `SingleDriving.SingleRunsConverge` | apps/api/src/webhooks/webhook.processor.ts:23-122 | in runs with single driving no write is stale and attempts stay within MAX; if no call was lost after its POST, attempts count at most MAX POSTs, delivered means exactly one success, dead means MAX POSTs and none |
| `SingleDriving.SingleKeepsEnded` | apps/api/src/webhooks/webhook.processor.ts:30 | while driving stays single, delivered and dead rows never change and get no POST |
| `WebhookOutcomes.FinalIffQuiet` | apps/api/src/webhooks/webhook.processor.ts:85-112 | a delivered or dead row stays as it is in every run exactly when no call under way would write something else |
| `WebhookOutcomes.DeliverableIff` | apps/api/src/webhooks/webhook-reaper.service.ts:55-100 | in every reachable state a delivery is or can still be delivered exactly unless it is dead and no call under way can rewrite it |
| `WebhookRuns.ProcessIsAPath` | apps/api/src/webhooks/webhook.processor.ts:23-122 | an undisturbed call of `process` is a run of its own steps |
| `WebhookRuns.ReaperTickIsAPath` | apps/api/src/webhooks/webhook-reaper.service.ts:55-100 | an undisturbed tick of the reaper is a run of selects and adds |
| `WebhookRuns.ReaperDoublesDrivers` | apps/api/src/webhooks/webhook-reaper.service.ts:86-99 | some run leaves a failed delivery with two waiting jobs, the reaper's late one among them |
| `WebhookRuns.TakenIdKeepsSingle` | apps/api/src/webhooks/webhook.processor.ts:106-121 | the same late add made before the call has returned is dropped and driving stays single |
| `WebhookRuns.DispatcherDrivesDelivered` | apps/api/src/webhooks/webhooks-dispatcher.service.ts:92-94 | some run leaves a delivered delivery with a job the dispatcher added late |
| `WebhookRuns.ProcessorDrivesDelivered` | apps/api/src/webhooks/webhook.processor.ts:107-120 | some run leaves a delivered delivery with a job the processor added late |
| `WebhookRuns.DeliveredIsOverwritten` | apps/api/src/webhooks/webhook.processor.ts:107-112 | some run turns a delivered row back into a failed one |
| `WebhookRuns.DeadAfterSuccess` | apps/api/src/webhooks/webhook.processor.ts:54-112 | under every maximum some run makes a delivery dead although a POST of it succeeded |
| `EndToEnd.EveryEndpointCanBeTold` | apps/api/src/webhooks/webhooks-dispatcher.service.ts:47-84 | in every reachable state of the composed system, each endpoint active at the dispatch of a terminal event has exactly one delivery, with the payment's final status and amount, which is or can still be delivered unless it is dead and not rewritable |
| `Deliveries.WebhookTextsDiffer` | apps/api/src/webhooks/webhook-reaper.service.ts:93 | the rebuilt job id texts are equal exactly when the jobs are |
| `Deliveries.PostDecides` | apps/api/src/webhooks/webhook.processor.ts:85-120 | what an undisturbed call makes of an open row: delivered on success; failed with its next job within the maximum; else dead |
| `Deliveries.WebhookProcessor.ReadRow` | apps/api/src/webhooks/webhook.processor.ts:25-30 | the row to send, or nothing if missing or ended |
| `Deliveries.WebhookProcessor.WriteRow` | apps/api/src/webhooks/webhook.processor.ts:85-112 | the unguarded write, and the attempts to schedule exactly if it failed within the maximum |
| `Deliveries.WebhookProcessor.ProcessJob` | apps/api/src/webhooks/webhook.processor.ts:23-122 | an undisturbed call on rows and queue; its new job has exactly the jittered delay of its attempts |
| `Deliveries.WebhookReaperService.ClaimStuck` | apps/api/src/webhooks/webhook-reaper.service.ts:60-78 | the transaction reads the selected rows and changes nothing |
| `Deliveries.WebhookReaperService.EnqueuePicks` | apps/api/src/webhooks/webhook-reaper.service.ts:86-99 | adds exactly the jobs rebuilt from what was read, whatever the rows are by then |
| `Deliveries.WebhookReaperService.ReapOnce` | apps/api/src/webhooks/webhook-reaper.service.ts:55-100 | an uninterrupted tick adds the rebuilt job of each selected row and changes no row |
| `Pagination.ListPage` | apps/api/src/payments/payments.controller.ts:63-76 | a page is the first rows of the filtered table, with a cursor exactly when rows remain: the id of its last row |
| `Pagination.FilterSelects` | apps/api/src/payments/payments.service.ts:142-150 | the filter keeps exactly the rows that meet status and cursor, in descending order |
| `Pagination.FilterMeans` | apps/api/src/payments/payments.service.ts:144-149 | the filtered table has exactly the rows of the requested status whose ids are below the cursor |
| `Pagination.FilterAfterCursor` | apps/api/src/payments/payments.service.ts:146 | filtering by the id of a shown row continues right after it |
| `Pagination.WalkShowsEverythingOnce` | apps/api/src/payments/payments.controller.ts:63-76 | following nextCursor ends and shows exactly the rows of the requested status below the cursor, each once, in descending order |
| `Pagination.GrowthDisturbsNothing` | apps/api/src/payments/payments.controller.ts:63-76 | unfiltered, newer rows inserted before every page neither hide nor repeat a row present at the start |
| `Pagination.MovingWalkShowsMatching` | apps/api/src/payments/payments.service.ts:142-150 | under a filter, with rows inserted and statuses changing before every page, the walk ends, shows no row twice, and shows every row that matches throughout |

## Left out

- Services.RelayService.PollOnce: does not choose its rows; the select with its order and limit of 100 is a parameter, and the locks are in the step system.
- Services.ReaperService.ReapOnce: does not choose its rows; the staleness deadline and the limit of 100 are a parameter, so reaping at any moment is covered.
- Services.PaymentProcessor.Process: models one call without interference and without errors raised; interleavings and errors are in the step system, to which `Refinement.ProcessIsAPath` connects it.
- Recovery.NothingIsLostWithoutEarlyErrors: covers runs without an error before the claim, because with one the promise is false; `Recovery.RecoverableIffNotStranded` covers every run.
- Notifications.WebhookDispatcherService.PollOnce: does not choose its events; the rows selected and the active endpoints are parameters, and the adds after the commit are a returned list, modelled in `Webhooks`.
- Deliveries.WebhookReaperService.ReapOnce: does not choose its rows; status and due time of the select are a parameter; the gap before the adds is in `Webhooks`.
- WebhookOutcomes.DeliverableIff: may use the redelivery of a stalled job, because a call whose last POST failed holds the job's id until it ends.
- Breakers.GrantsSpaced: speaks of one process's breaker; each worker process has its own.
- Real time: delays, timeouts, latency and due times appear only as numbers or as free choices.
- HTTP, DTO validation, headers, signatures, JSON bodies, logging, metrics and correlation ids.
- The envelope and the target of a webhook POST; a POST is a choice of success or failure, and a missing endpoint is a job dropped before it did anything.
- Ids and times of audit events, `updatedAt` and `nextAttemptAt`.
- Partitioning and retention of the outbox, beyond the assumption above.
- Postgres and BullMQ internals, beyond atomicity, unique constraints, locks, job ids and redelivery.
- `find_one`, `list_events`, the listing of webhook deliveries and the health endpoints, which only read.
- Environment parsing, the console, deployment and demo scripts.
- NaN, infinities and integers beyond 2^53 in `convUnitsToAmount`; `Money.ConvUnitsToAmount` takes a real.
