# A model of the M-Pesa payment service

The service initiates M-Pesa STK pushes through Safaricom's Daraja API, receives their callbacks, expires payments that never got one, limits request rates, keeps an audit trail, and guards its calls of Daraja with a circuit breaker and a cached OAuth token. These files model the parts that carry state and prove what they promise, over every input and every interleaving. `dafny verify dfyconfig.toml` checks all of them.

| file | what it models |
|---|---|
| `Payments.dfy` | the payments table with its constraints, the repository and its transactions |
| `StkProtocol.dfy` | initiations, callbacks and sweeps as a transition system over one table and one Redis |
| `StkInvariant.dfy` | the invariant of that system and its preservation by every step |
| `Scenarios.dfy` | pieces of runs, for the modules that show a promise broken |
| `Idempotency.dfy` | one key, one initiation; the same answers, and the status in them; a key that is taken; orphans |
| `LockExclusion.dfy` | when the lock per key keeps workers apart, and when it does not |
| `KeyConflict.dfy` | the documented 409 for other parameters: when a 409 is raised, and that parameters decide nothing |
| `Lifecycle.dfy` | when a payment can leave COMPLETED, FAILED or CANCELLED, and the races that do it |
| `Receipts.dfy` | when two payments come to have one receipt |
| `Columns.dfy` | who changes which columns of a row, and what a row shows after a callback |
| `CallbackDelivery.dfy` | duplicate callbacks against a sequential reference |
| `EarlyCallback.dfy` | callbacks that overtake the ids they belong to, and what decides whether a callback completes its payment |
| `StaleSweep.dfy` | how many sweeps fail how many stale rows |
| `PaymentAge.dfy` | when each row was created, and that the sweep reaches none before its ten minutes are over |
| `Endings.dfy` | why an initiation or a callback ends as it does, and what it leaves in the log, in Redis and in the row |
| `StkService.dfy` | the service's methods, updating table and Redis in place under interference |
| `CallbackRetry.dfy` | the Celery job that retries a callback, workers that are lost, and the guard that stops them all |
| `TokenBucket.dfy` | the rate limiter's Lua script, key expiry, and the route table |
| `AuditChain.dfy` | the audit hash chain: encoding, builder, verification, sanitising |
| `CircuitBreaker.dfy` | the circuit breaker shared by interleaved retrying posts |
| `OAuthToken.dfy` | the OAuth token cache and its lock |
| `Msisdn.dfy` | phone number normalisation |

## How the model is built

Each concurrent component is a transition system whose `Next` is total: a label that does not apply changes nothing. So every sequence of labels is a run, and a lemma over every sequence of labels is a claim about every interleaving. Labels carry what the environment does: what Redis answers (`Up`, `Down`, or `Lost`, which takes effect although the caller sees an error), what the database does with a transaction, what Daraja replies, when time passes, when a key expires or is evicted, when an actor crashes or is cancelled.

The classes beside these systems are the source's objects. Their methods update fields in place. `Await` lets any number of steps of other actors happen, and `Record` accepts what a method did to the shared state only if one label of the transition system does the same. A method that ends has therefore been one actor of a run, and what holds in every run holds when it returns.

Where the code differs from what it says it does, the code is modelled first and a repaired variant stands beside it under a name of its own:

- `app/services/stk.py:6` promises a 409 when a key comes back with other parameters. No path compares parameters (`KeyConflict.ParametersAreNotCompared`); the second request is answered with the first one's payment (`KeyConflict.OtherParametersAreAnswered`), or runs into the UNIQUE constraint while the row is PENDING (`Idempotency.TakenKeyIsRefused`). The one 409 there is tells of a held lock (`KeyConflict.ConflictIff`).
- `app/daraja/client.py:127` compares where it means to assign, so the breaker never opens. `wiring` selects `AsWritten` or `AsMeant`.
- `app/daraja/client.py:224` and `app/daraja/client.py:163` count one 5xx twice.
- `app/daraja/client.py:153` makes tenacity raise its own RetryError when the retries run out, so the DarajaTimeoutError of lines 178 and 183 is never raised and nothing marks the row failed (`Idempotency.ExhaustedRetriesOrphan`, `Idempotency.ExhaustedRunStrands`).
- `app/daraja/auth.py:81` deletes the cached token where it means to release the lock. `wiring` selects the variant. Neither keeps the promise of lines 12-13 that one process fetches at a time (`OAuthToken.TwoHoldersIff`, `OAuthToken.TwoHoldersAsMeantIff`), and processes that fetch without the lock are not bound by it (`OAuthToken.TwoFetchersIff`).
- `app/tasks/_infra.py:64` configures a Redis client that returns text, on which the `decode` of `app/daraja/auth.py:64` raises: `get_token` fails there exactly while the cache is warm (`OAuthToken.TextReadRaisesIff`, `OAuthToken.WarmCacheRaises`).
- `app/tasks/reconciliation_tasks.py:89-99` updates a row without looking at its status again. `sweepTestsStatus` adds the test.
- `app/tasks/stk_tasks.py:74-87` retries a callback whose first run left its own guard in Redis. `GuardReleased` deletes the guard when a run raises, which still does not help when a worker is lost.
- `app/middleware/rate_limit.py:74-75` lists two prefixes without the leading slash of every path, so those routes get the default limit.
- `app/models/payment.py:58` says receipts are UNIQUE; the column at lines 124-128 is not, and neither is it here: `Receipts.ReceiptsStayUniqueIff` says when receipts stay unique, `Receipts.ReceiptIsRepeated` shows two payments with one.
- `app/services/stk.py:10-12` promises that the lock lets one worker at a time initiate a payment. That holds while locks are not lost and Redis answers (`LockExclusion.LockIsExclusive`) and fails when one expires (`LockExclusion.LockIsNotExclusive`).
- `app/models/payment.py:44-49` and the lookup at `app/services/stk.py:133-137` treat FAILED and CANCELLED as final; a late callback changes them (`Lifecycle.OutcomesAreNotFinal`, `Lifecycle.LateCallbackCompletesFailed`).
- `app/models/audit.py:211-216` promises to strip sensitive values from payloads; it looks at the top level only (`AuditChain.SurvivesIff`).

## Model

| member | source | states |
|---|---|---|
| Payments.SettleKeepsTable | app/models/payment.py:104-117 | whatever a transaction does, idempotency keys and checkout ids stay unique, pending rows stay blank, and no row loses its identity |
| Payments.PaymentRepository.Create | app/repository/payment_repo.py:72-78 | a new row is held back until commit |
| Payments.PaymentRepository.GetByIdempotencyKey | app/repository/payment_repo.py:88-93 | finds a row with the key, or there is none |
| Payments.PaymentRepository.GetByCheckoutRequestId | app/repository/payment_repo.py:95-104 | finds a row with the checkout id, or there is none |
| Payments.PaymentRepository.UpdateDarajaIds | app/repository/payment_repo.py:106-122 | both ids of one row, held back until commit |
| Payments.PaymentRepository.MarkCompleted | app/repository/payment_repo.py:129-148 | completion with receipt and amount, without a status test |
| Payments.PaymentRepository.MarkFailed | app/repository/payment_repo.py:155-178 | failure, or cancellation for code 1032, without a status test |
| Payments.PaymentRepository.Commit | app/services/stk.py:156-161 | the statement takes effect unless a constraint or the database refuses it; the caller may see an error either way |
| StkProtocol.RunAppends | app/services/stk.py:85-294 | runs compose |
| StkProtocol.OthersLeave | app/services/stk.py:85-294 | an actor's own position changes by its own labels only |
| StkInvariant.MoveIsGood | app/services/stk.py:111-294 | every step of every actor keeps the memory invariant, its own claim, and everyone else's |
| StkInvariant.StoreIdsStep | app/services/stk.py:187-196 | storing Daraja's ids fills a row that had none |
| StkInvariant.InsertStep | app/services/stk.py:144-161 | a committed insert gives an id nobody else holds and no event mentions |
| StkInvariant.MoveRow | app/repository/payment_repo.py:106-178 | a row that a step changes is the one its statement names, changed as the statement says |
| StkInvariant.NextKeepsInv | app/services/stk.py:85-294 | the invariant survives every label: steps, crashes, cancellation, expiry, eviction, time |
| StkInvariant.InvAlways | app/services/stk.py:85-294 | it holds in every reachable state |
| StkInvariant.RunGrows | app/services/stk.py:16-21 | along every run rows stay, with what identifies them, and stored ids are never overwritten |
| Idempotency.AtMostOneInitiation | app/services/stk.py:111-171 | for every key and run, Daraja is called by at most one initiation and at most the configured number of requests goes out, whatever becomes of the lock |
| LockExclusion.LockIsExclusive | app/services/stk.py:10-14 | while no lock is lost and Redis answers those who take one, at most one worker per key is between lock and release, and its lock is set, crashes, cancellations and failed deletions included |
| LockExclusion.ExclusiveAlongIff | app/services/stk.py:116-128 | in every run this has held all along exactly when nobody was let past the lock, by its absence or by a Redis failure, while another was inside |
| LockExclusion.LockIsNotExclusive | app/services/stk.py:219-221 | for every three requests with one key, one expiry lets a second worker in, and the first one's finally block then lets in a third beside it |
| Idempotency.EveryCallIsAnchored | app/services/stk.py:140-161 | whatever went to Daraja has a committed row with its key, phone and amount, now and in every later state |
| Idempotency.CheckoutIdIsWrittenOnce | app/services/stk.py:186-196 | a stored checkout id, and its merchant id, never change |
| Idempotency.SameKeySameAnswer | app/services/stk.py:132-217 | two successful answers for a key name one payment and agree on the ids they carry, wherever they came from |
| Idempotency.AnswerTells | app/services/stk.py:322-329 | in every run an answer from the table has the payment, the status and exactly the ids that the row had when it was read; any other says PENDING and carries both ids that are stored in its row |
| Idempotency.SameStatusIff | app/services/stk.py:5 | two answers agree in status if and only if neither was read from the table, or both were, with the row in one status |
| Idempotency.ColdReadTellsOutcome | app/services/stk.py:132-139 | for every request, successful callback and repetition there is a run whose first answer says PENDING and whose second, from the table once the cache entry is lost, COMPLETED, with the same two ids |
| Idempotency.TakenKeyIsRefused | app/services/stk.py:132-161 | past the lookup with a row of its key in the table, a request ends in an error and never calls Daraja, in every continuation |
| KeyConflict.ConflictIff | app/services/stk.py:116-128 | in every run a request ends in the 409 if and only if, at its own turn, Redis told it that the lock of its key was held |
| KeyConflict.ParametersAreNotCompared | app/services/stk.py:4-8 | replace the phone and amount of one request: every run in which it does not yet insert its row is the same run, for memory, everyone else, and its own course and outcome |
| KeyConflict.OtherParametersAreAnswered | app/services/stk.py:110-114 | for every two requests with one key there is a run that answers the second with the payment of the first |
| Idempotency.PendingRowsAreBlank | app/tasks/reconciliation_tasks.py:74-82 | a PENDING row carries no outcome in any reachable state, so the sweep's query branch is never taken |
| Idempotency.OrphanNeverCompletes | app/services/stk.py:16-21 | a payment without ids that no initiation answers for keeps its status or becomes FAILED, whatever happens |
| Idempotency.ExhaustedRetriesOrphan | app/daraja/client.py:144-186 | when the retries run out the table is left as it is, the payment is orphaned, and nothing ever completes it |
| Idempotency.ExhaustedRunStrands | app/daraja/client.py:144-153 | for every number of attempts there is such a run: every attempt went out and the row is PENDING without ids |
| Endings.FactIff | app/services/stk.py:85-294 | in every run an outcome of an initiation, an ending of a callback, a lock, a guard or a cached answer is there if and only if it was made at some step and not undone since: each error and each answer has the replies that decide it, cancellation and crashes included; a lock goes with any release of its key, a guard and a cached answer only when lost |
| Endings.FinishedAsAnswered | app/services/stk.py:85-221 | so an initiation that has finished has the one outcome that it was answered |
| Endings.CallbackEndsAsAnswered | app/services/stk.py:224-294 | and a callback the one ending: ignored, unmatched, applied, or an error |
| Endings.InsertsOnlyIfNoneIsFinal | app/services/stk.py:132-139 | past the lookup every row of the key is PENDING at that moment |
| Endings.SweepGoesOn | app/tasks/reconciliation_tasks.py:74-103 | whatever becomes of one update, a sweep that is neither cancelled nor crashed goes on to the next: it has tried as many rows as it was answered, in order |
| Endings.SweepStops | app/tasks/reconciliation_tasks.py:48-63 | a failing SELECT ends a sweep for good, and so does a cancellation |
| Endings.LogIsAllCalls | app/daraja/client.py:134-175 | in every run the log is the calls of Daraja's client in order: one per circuit check, one per request that was sent, whatever came back, and none without a token |
| Endings.FailureIsRecorded | app/services/stk.py:172-184 | after a Daraja error the row is FAILED with that reason and code 1 unless the database is down, and the error stays the same |
| Endings.StoredIdsWereGiven | app/services/stk.py:186-196 | in every run the ids stored in a row are the two that Daraja gave to a request for that payment |
| Endings.FinallyRuns | app/services/stk.py:219-221 | past its lock an initiation finishes only through the finally block, cancelled or not, where the deletion of its lock is attempted; only a worker that dies leaves without it |
| Endings.EndIsFinal | app/services/stk.py:85-294 | a call that has ended or died stays as it is, in every continuation |
| Endings.DeadForGood | app/services/stk.py:18-21 | a worker that dies stays dead, and leaves its row, its lock and its guard as they are |
| Endings.RepeatIsServedFromCache | app/services/stk.py:110-114 | once an initiation has cached its answer, every request with its key that Redis answers is given that very answer until the entry is lost |
| Lifecycle.GuardInvAlways | app/services/stk.py:235-242 | while guards are kept, one processor at a time is at work per checkout id, and none once its payment is COMPLETED |
| Lifecycle.CompletedLeavesIff | app/repository/payment_repo.py:155-178 | in every run, guards kept or not, a COMPLETED row leaves COMPLETED exactly when an untested sweep update or a callback's failure outcome reaches it |
| Lifecycle.CompletedLeavesOnlyBySweep | app/tasks/reconciliation_tasks.py:86-99 | with guards kept, exactly when an untested sweep update does |
| Lifecycle.SweepSawPending | app/tasks/reconciliation_tasks.py:48-63 | every row in a sweep's hands was PENDING at the earlier point of the run where that sweep selected it |
| Lifecycle.OverwrittenByStaleSweep | app/tasks/reconciliation_tasks.py:45-99 | so what takes a row out of COMPLETED is a sweep that had read it as PENDING before |
| Lifecycle.CompletedIsAbsorbing | app/tasks/reconciliation_tasks.py:89-99 | with a status test in the sweep's update, COMPLETED is never left |
| Lifecycle.SweepOverwritesCompleted | app/tasks/reconciliation_tasks.py:89-99 | without it, for every request and successful callback there is a run that ends with a FAILED row that carries a receipt |
| Lifecycle.PendingIsNeverRegained | app/models/payment.py:44-49 | PENDING is left once and for all, in every run |
| Lifecycle.OutcomesAreNotFinal | app/services/stk.py:133-137 | in every run a FAILED row leaves FAILED exactly when a callback reporting success or cancellation takes effect on it, a CANCELLED row exactly when any other outcome or an untested sweep update does |
| Lifecycle.LateCallbackCompletesFailed | app/tasks/reconciliation_tasks.py:89-99 | for every request and successful callback there is a run in which the callback completes a payment that the sweep has failed |
| Columns.ChangesTell | app/repository/payment_repo.py:106-178 | in every run a row changes by a callback, by an initiation that stores its ids or records its failure, or by the sweep; each writes its own columns, with its own reason and code, and leaves the others |
| Columns.AppliedShows | app/repository/payment_repo.py:129-178 | a callback that commits leaves status, receipt, time and every reported amount above zero as the amount paid, none for zero; or its reason and code, cancelled for 1032 |
| PaymentAge.EveryPaymentWasCreated | app/models/payment.py:150-154 | every row was committed for a request at one position of the run, and its creation time is the time there |
| PaymentAge.YoungPaymentsAreSpared | app/tasks/reconciliation_tasks.py:38-63 | in every run whatever a sweep has in hand was created more than 600 seconds before, and a sweep leaves every younger row as it is |
| Receipts.ReceiptsStayUniqueIff | app/models/payment.py:58 | in every run receipts have been unique all along exactly when no callback took effect with a receipt that another payment had |
| Receipts.ReceiptIsRepeated | app/models/payment.py:124-128 | for every two payments and callbacks that carry one receipt there is a run, with guards kept, that leaves both COMPLETED with it |
| CallbackDelivery.ApplyAllRow | app/services/stk.py:248-287 | in the sequential reference a row gets the outcome of its own callback, or stays |
| CallbackDelivery.ApplyInAnyOrder | app/services/stk.py:22-25 | the order of callbacks for different ids does not matter |
| CallbackDelivery.DeliveriesTrack | app/services/stk.py:236-294 | at every point of every interleaving, rows are as before until the one winner of their id is done, and then show its outcome |
| CallbackDelivery.WinnersDecideTheTable | app/services/stk.py:236-294 | every interleaving of duplicate callbacks ends in the table that the guard winners alone give, in any order, with exactly one winner per delivered id whose guard was free; a winner's row shows status, receipt, amount and time, or reason and code, as reported |
| EarlyCallback.BurntForGood | app/services/stk.py:236-247 | while guards last, no payment with a burnt id is ever completed |
| EarlyCallback.LookupDecides | app/services/stk.py:243-247 | with guards kept and the database committing, an admitted successful callback has its payment COMPLETED, by itself or any other, if and only if its own lookup found the row |
| EarlyCallback.DroppedCallbackIsLost | app/services/stk.py:186-196 | for every request and callback there is such a run in which the ids are stored after the lookup: the payment is left PENDING and nothing ever completes it |
| EarlyCallback.RedeliveryAfterExpiryCompletes | app/config.py:122-125 | once the guard has expired, another delivery of the same callback completes the payment after all |
| StaleSweep.SweepFails | app/tasks/reconciliation_tasks.py:48-99 | one undisturbed sweep fails exactly the rows it selected, with reason and code -99 |
| StaleSweep.SweepCounts | app/tasks/reconciliation_tasks.py:61 | which takes fifty rows off the stale ones, or all that are left |
| StaleSweep.SweepsDrain | app/tasks/reconciliation_tasks.py:45-99 | k undisturbed sweeps leave exactly max(0, n - 50k) of n stale rows and touch no other row |
| StaleSweep.StaleRowsFail | app/tasks/reconciliation_tasks.py:31-33 | in every reachable state, n stale rows are all FAILED after k such sweeps if and only if n <= 50k |
| StkService.RedisStore.Get | app/services/stk.py:331-337 | a Redis failure reads as a miss |
| StkService.RedisStore.SetLock | app/services/stk.py:339-348 | a Redis failure counts as acquired, whether or not the command took effect |
| StkService.RedisStore.SetGuard | app/services/stk.py:237-239 | the guard of a checkout id is set once; a Redis failure lets the callback through |
| StkService.RedisStore.SetCache | app/services/stk.py:350-355 | a failure is swallowed |
| StkService.RedisStore.DeleteLock | app/services/stk.py:357-362 | the lock goes, whoever holds it |
| StkService.Platform.Await | app/services/stk.py:111 | at an await every other actor may take any number of steps; this one stands still |
| StkService.Platform.Admit | app/services/stk.py:85-87 | a request, a callback or a beat becomes an actor of the run |
| StkService.Platform.Record | app/services/stk.py:85-294 | what a method did to the shared memory was one step of the protocol |
| StkService.STKService.FindExisting | app/services/stk.py:131-139 | answers with a row of the key whose status is final, with its status and exactly the ids stored in it, or else every row of the key is PENDING |
| StkService.STKService.CreatePending | app/services/stk.py:144-161 | the row is committed before Daraja is called, PENDING, with the request's data and the time of that moment, or the request ends in an error |
| StkService.STKService.SendOnce | app/daraja/client.py:155-175 | one attempt: answered, failed for good, or failed for now with one attempt fewer |
| StkService.STKService.Initiate | app/services/stk.py:163-171 | the circuit check, then at most the configured number of requests |
| StkService.STKService.MarkNotInitiated | app/services/stk.py:172-184 | after a Daraja error the row is marked FAILED with its reason and code 1; a failure to do so is swallowed |
| StkService.STKService.PersistIds | app/services/stk.py:186-205 | unless it raises, the row has the two ids that Daraja gave, and the response carries the same |
| StkService.STKService.CacheResponse | app/services/stk.py:206-217 | the response is cached under the key and returned |
| StkService.STKService.WithLock | app/services/stk.py:131-217 | every way through the try block leads to the finally block |
| StkService.STKService.ReleaseLock | app/services/stk.py:219-221 | the lock is deleted on every way out |
| StkService.STKService.InitiateStkPush | app/services/stk.py:85-221 | whatever the others do meanwhile, it ends as it was answered; its key went to Daraja by one initiation at most; an answer names the committed row of the key, with the ids stored in it and the status it had when it was read |
| StkService.STKService.TakeCallbackGuard | app/services/stk.py:235-242 | a delivery goes on if it set the guard, or Redis failed; otherwise the guard is set |
| StkService.STKService.MatchPayment | app/services/stk.py:243-247 | the payment with the checkout id, or there is none |
| StkService.STKService.ApplyToPayment | app/services/stk.py:248-287 | when it reports success the matched row shows the reported outcome, with every amount above zero as the amount paid and none for zero |
| StkService.STKService.ProcessCallback | app/services/stk.py:224-294 | whatever the others do meanwhile, it ends as it was answered, and its ending tells what it saw: a set guard, no payment, or its outcome, amount included, in the row |
| StkService.SelectStale | app/tasks/reconciliation_tasks.py:48-63 | distinct stale rows, all of them unless the limit of fifty is reached |
| StkService.STKService.ExpireOne | app/tasks/reconciliation_tasks.py:74-103 | one row of the batch, more than ten minutes old: queried, or updated to FAILED with its reason and code -99, or an error passed over |
| StkService.STKService.ExpireStalePendingPayments | app/tasks/reconciliation_tasks.py:36-103 | whatever the others do meanwhile, it ends, and every row whose update it saw committed was created more than 600 seconds before and has left PENDING |
| CallbackRetry.BackoffsSum | app/tasks/stk_tasks.py:23-24 | the countdowns before the n-th retry sum to exactly 30 * (2^n - 1) seconds, 930 in all; the rest is spent in runs and in the queue |
| CallbackRetry.RetryWaits | app/tasks/stk_tasks.py:74-87 | the retries start after countdowns of 30, 60, 120, 240 and 480 seconds in turn and there is no sixth; a lost run is repeated without one |
| CallbackRetry.DefaultGuardOutlivesRetries | app/tasks/stk_tasks.py:27-36 | all runs start within the default guard unless the queue, or messages delivered again, take up most of a day |
| CallbackRetry.AppliedIff | app/tasks/stk_tasks.py:74-87 | for every behaviour of Redis, database, queue and workers within the life of the guard, the row gets the outcome exactly when a run that takes place gets past the guard and commits |
| CallbackRetry.RetriesStopAtTheGuard | app/services/stk.py:236-242 | as written, with Redis up, that is exactly when the first run commits; the job reports success all the same |
| CallbackRetry.ReleasedGuardApplies | app/services/stk.py:265-267 | with the guard released by a run that raises, it is exactly when some run commits before a worker is lost and before a run finds no payment |
| CallbackRetry.FirstRetryWaitsForExpiry | app/config.py:122-125 | the first retry gets through as written if and only if the guard has expired by then |
| CallbackRetry.NegativeAmountNeverApplies | app/models/payment.py:177-180 | a success that reports a negative amount is refused in every run, whatever happens |
| CallbackRetry.RunIsOfTheProtocol | app/services/stk.py:224-294 | a run whose worker survives is a run of one processor in the protocol, with the same row, the same guard and the same way to end |
| CallbackRetry.RepairOnlyReleases | app/services/stk.py:265-267 | with the repair a run is the same, except that one that raises deletes its guard if Redis lets it |
| CallbackRetry.CallbackTask.ProcessCallback | app/services/stk.py:224-287 | one run of the service call inside the job |
| CallbackRetry.CallbackTask.Process | app/tasks/stk_tasks.py:37-87 | the retries, and the runs of messages delivered again after a lost worker, end as the runs describe |
| TokenBucket.SameTtl | app/middleware/rate_limit.py:61-65 | both EXPIRE expressions give one time to live, which outlasts a full refill by the margin |
| TokenBucket.BucketKey.Script | app/middleware/rate_limit.py:44-69 | the script as one atomic step: verdict, remaining tokens as the whole part of what is left, retry time, stored hash and expiry |
| TokenBucket.ExpiryIsInvisibleIff | app/middleware/rate_limit.py:51-67 | for every call sequence, an expiring key finds the tokens that one that never expires finds, at every call, if and only if the bucket was full whenever its key was found expired |
| TokenBucket.ExpiryIsInvisible | app/middleware/rate_limit.py:61-65 | which it is when the clocks drift by at most the margin between calls |
| TokenBucket.DeceivedIff | app/middleware/rate_limit.py:61-65 | after a call that left the bucket less than full, a given drift of the clocks can deceive the next call if and only if it exceeds the time to live less what is left to fill |
| TokenBucket.MarginIsSharp | app/middleware/rate_limit.py:61-65 | that limit is at least the margin, and is the margin exactly for a drained bucket whose refill takes whole seconds |
| TokenBucket.TokensAreConserved | app/middleware/rate_limit.py:51-67 | for every sequence of calls to the script, on any clocks, granted cost plus what is left is at most what was there plus the rate times the forward steps of the worker clock plus what expiry gave away, with equality exactly when the cap never bites; agreeing clocks give nothing away |
| TokenBucket.WindowGrant | app/middleware/rate_limit.py:71-79 | a monotone window grants at most the capacity plus the rate times the window plus what expiry gives away inside it; nothing, when the clocks agree |
| TokenBucket.DenialMovesTheDeadline | app/middleware/rate_limit.py:63-67 | after a denied call a later one finds other tokens exactly when one deadline has passed, the other has not, and the bucket is not full |
| TokenBucket.DeniedCallsLeaveNoTrace | app/middleware/rate_limit.py:51-67 | erasing any set of denied calls from a monotone run of the script leaves what the others find, decide and store, if and only if expiry does no harm in the run that is left |
| TokenBucket.CloseClocksSurviveErasure | app/middleware/rate_limit.py:61-65 | it does none, before or after any erasure, when no two calls of the run are further apart on one clock than on the other by more than the margin |
| TokenBucket.DriftAddsUp | app/middleware/rate_limit.py:65 | drift within the margin from call to call is not enough: an erased denial no longer refreshes the key |
| TokenBucket.RetryAfterIsLeast | app/middleware/rate_limit.py:66 | after a denial an idle key admits the request after a whole number of worker seconds exactly when that number has reached retry_after or the key has expired; with agreeing clocks retry_after alone decides; never if the cost exceeds the capacity |
| TokenBucket.ResolveLimit | app/middleware/rate_limit.py:73-101 | the longest matching prefix decides, with the limits of the table, else 60 and 1 per second; a path with its leading slash never matches the two prefixes without one |
| AuditChain.EncodingIsInjective | app/models/audit.py:94-103 | two rows with one message agree in all four fields, even if the payload contains the delimiter |
| AuditChain.BarInEventTypeIsAmbiguous | app/models/audit.py:102 | a delimiter in the event type gives every message a second reading |
| AuditChain.LastChecksumCommits | app/models/audit.py:191-208 | two accepted histories with one last checksum have equal length and equal covered columns, or two messages collide |
| AuditChain.PrefixAccepted | app/models/audit.py:191-208 | accepted histories are closed under prefix |
| AuditChain.DigestsDiffer | app/models/audit.py:74-82 | no checksum recurs in an accepted history, or two messages collide |
| AuditChain.AppendAccepted | app/models/audit.py:149-180 | an appended row keeps the history accepted exactly when it takes the last place, or two messages collide |
| AuditChain.ForkRejected | app/models/audit.py:149-156 | two appends that read one predecessor make verification reject, or two messages collide |
| AuditChain.AcceptedIffBuilt | app/models/audit.py:134-208 | the accepted histories are exactly those that appending builds, on the columns the digest covers |
| AuditChain.BuiltRowsAreLinked | app/models/audit.py:74-103 | every row that appending builds records its event, with the digest of its four fields and, but for the first row, the digest of the row before it |
| AuditChain.AcceptsIff | app/models/audit.py:191-208 | verification accepts a history exactly when each digest is that of the row, its fields joined by bars, and of the row before |
| AuditChain.SureIffStrict | app/models/audit.py:182-208 | rows accepted in one order are accepted in every order the query may return if and only if their creation times differ, or two messages collide |
| AuditChain.AppendSure | app/models/audit.py:149-180 | onto rows with distinct times that verify, an append leaves a trail that verifies in every order exactly when it is strictly later, or two messages collide |
| AuditChain.AuditLogRepository.GetPaymentHistory | app/models/audit.py:182-189 | the rows in one of the orders that the creation times allow, ties in any order |
| AuditChain.AuditLogRepository.Append | app/models/audit.py:134-180 | the row records the event and is chained to the last one of some such order, NULL exactly for the first; with distinct times, verification is sure to accept afterwards exactly when the row is strictly later, or two messages collide |
| AuditChain.AuditLogRepository.VerifyChainIntegrity | app/models/audit.py:191-208 | true if and only if, in the order read, every checksum is that of its row and its predecessor's checksum |
| AuditChain.Sanitise | app/models/audit.py:210-234 | every key of the payload: the six sensitive ones redacted, twelve characters from 254 on masked in the middle, everything else as it came |
| AuditChain.SanitisedIsFinal | app/models/audit.py:217-233 | at the top level, sensitive values and the middle digits of phone numbers sent as text leave no trace, everything else is kept, and sanitising again changes nothing |
| AuditChain.SurvivesIff | app/models/audit.py:225-234 | whatever shows in a value, at any depth, still shows after sanitising unless its key is sensitive or it is itself such a phone number |
| AuditChain.NestedSecretsSurvive | app/models/audit.py:210-216 | so nested secrets and phone numbers sent as numbers are written to the trail |
| CircuitBreaker.ClosedIffBelowThreshold | app/daraja/client.py:90-132 | for every interleaving of posts the counter is transport errors plus twice the 5xx replies since the last success, and the time beside it that of the last of them; as meant the circuit is CLOSED exactly below the threshold, as written always |
| CircuitBreaker.RefusedIff | app/daraja/client.py:90-113 | in every run a post is refused if and only if, as meant, the failures since the last success have reached the threshold and the last of them is less than the timeout ago |
| CircuitBreaker.PostEndsAsAnswered | app/daraja/client.py:134-186 | in every run a post ends as its own replies have it: with the result for a success, a DarajaError for a client error, a RetryError when all attempts failed in transit; it goes on only after transient replies, and DarajaTimeoutError is never raised |
| CircuitBreaker.HalfOpenTestIsRedundant | app/daraja/client.py:126 | in every reachable state the HALF_OPEN disjunct decides nothing |
| CircuitBreaker.NeverOpensAsWritten | app/daraja/client.py:127 | as written every post is admitted after any history |
| CircuitBreaker.OpenCircuitDrains | app/daraja/client.py:134-171 | while the circuit stays open, the requests started are paid for by unused attempts of posts already in flight |
| CircuitBreaker.RetryAfterSuffices | app/daraja/client.py:100-111 | retry_after lies between 0 and the timeout; one second more always suffices without a new failure, retry_after itself exactly when nothing was rounded off |
| CircuitBreaker.DarajaClient.Check | app/daraja/client.py:90-113 | admits, admits as a probe, or refuses with a wait |
| CircuitBreaker.DarajaClient.RecordSuccess | app/daraja/client.py:115-119 | closes the circuit and clears the counter |
| CircuitBreaker.DarajaClient.RecordFailure | app/daraja/client.py:121-132 | counts; opens at the threshold as meant, never as written |
| CircuitBreaker.DarajaClient.AttemptOnce | app/daraja/client.py:155-175 | one request, one reply more for the post, and what it does to the breaker and to the post |
| CircuitBreaker.DarajaClient.Post | app/daraja/client.py:134-186 | whatever other posts do meanwhile, it ends: refused exactly while too many failures are too recent, as meant; else with the result, DarajaError or another error exactly as the last of its replies says, all before it transient, or RetryError exactly when all attempts failed in transit; no path to DarajaTimeoutError |
| OAuthToken.InvAlways | app/daraja/auth.py:52-99 | every reachable cache entry was issued before it was stored; as written, none is by a holder that has returned |
| OAuthToken.ServedTokenIsFresh | app/daraja/auth.py:159-170 | in every run a token served from the cache has more life left than the margin less its fetch latency, or, issued for less than margin + 60, than its lifetime less 60 seconds and the latency |
| OAuthToken.ServedStaleIff | app/daraja/auth.py:159-170 | a token can be served after it expired if and only if its fetch latency exceeds the margin, or leaves it less than the 60 seconds it is cached at the least |
| OAuthToken.HolderTokenIsNeverShared | app/daraja/auth.py:77-81 | as written, once a lock holder has returned no read in any continuation is served its token |
| OAuthToken.StoredTokenIsShared | app/daraja/auth.py:52-66 | as meant, along every run without eviction a stored token stays until a later one replaces it; exactly until its cache time is over a read is served the token that is there, and a read through a client that returns text raises |
| OAuthToken.ServedIffFoundWarm | app/daraja/auth.py:52-94 | in every run of either wiring a call is served a token if and only if a read or a poll of its own was answered while the cache was warm |
| OAuthToken.PollIsServedIff | app/daraja/auth.py:83-99 | what a poll leads to: the cached token for good if it is answered while the cache is warm, else a quarter of a second more, or, after as many polls as fit the lock, its own fetch |
| OAuthToken.WaiterSharesToken | app/daraja/auth.py:86-94 | as meant, in every run without eviction, a waiter whose poll is answered within the cache time is served the shared token and never fetches, whatever happens after |
| OAuthToken.TokensWereIssued | app/daraja/auth.py:101-170 | in every run every token that is stored, cached, served or returned was issued by Daraja, to the process that stored it, at the time and for the lifetime it carries |
| OAuthToken.FactIff | app/daraja/auth.py:52-99 | in every run of either wiring the result of a call, the cached token and the life of the lock are as they are if and only if a step made them so and none undid it since: each result has the replies that decide it; a token goes with the next one, by eviction and, as written, by any finally block, a lock by its next taker and, as meant, by any finally block; a crash frees nothing |
| OAuthToken.TextReadRaisesIff | app/tasks/_infra.py:58-68 | in every run of either wiring a call that reads through such a client raises for good if the cache is warm then, and goes on to the lock if not |
| OAuthToken.WarmCacheRaises | app/daraja/auth.py:63-64 | for every setting and token there is a run in which it raises |
| OAuthToken.LatecomersPoll | app/daraja/auth.py:73-87 | as written, for the whole life of the lock, its holder returned or not, every other process polls instead of fetching |
| OAuthToken.TwoHoldersIff | app/daraja/auth.py:11-14 | as written a second process takes the lock some time after the first, which is still fetching, in some run if and only if the lock lives no longer than that |
| OAuthToken.TwoHoldersAsMeantIff | app/daraja/auth.py:77-81 | as meant this can happen after any time at all, because a holder whose lock ran out frees its successor's |
| OAuthToken.TwoFetchersIff | app/daraja/auth.py:56-61 | of all processes, those that fetch because Redis fails included, a second may join the first after any time at all, in both wirings |
| OAuthToken.WaitingIsBounded | app/daraja/auth.py:83-95 | a waiter polls a bounded number of times and sleeps no longer than the lock can live |
| OAuthToken.AuthManager.FetchNewToken | app/daraja/auth.py:101-170 | a token that was issued meanwhile, cached unless Redis is down, or an error exactly when Daraja refuses; a failed cache write is not an error |
| OAuthToken.AuthManager.RefreshAsHolder | app/daraja/auth.py:77-81 | fetches and runs the finally block, whose own failure becomes the result: a token is returned only if the deletion was answered |
| OAuthToken.AuthManager.PollForToken | app/daraja/auth.py:83-95 | ends with the cached token exactly when one of its polls found the cache warm; otherwise fetches after sleeping as many quarters of a second as fit the life of the lock |
| OAuthToken.AuthManager.AcquireLockAndRefresh | app/daraja/auth.py:68-99 | one holder's refresh or one waiter's polling, ended; served exactly if a poll found the cache warm |
| OAuthToken.AuthManager.GetToken | app/daraja/auth.py:52-66 | whatever other processes do meanwhile, it ends: served exactly if its read or a poll found the cache warm, and then what was there; a fetched token was issued to it; a long-lived token from the cache is as fresh as promised; behind a client that returns text an answered first read ends the call, by an exception, exactly when the cache is warm |
| Msisdn.AcceptedIff | app/schemas/stk.py:81-106 | whatever characters count as digits and space: accepted exactly when, separators removed, it is a plus or none, then 254, 0 or nothing, then 7 or 1 and eight digits; the result is 254 and the last nine digits |
| Msisdn.PlusIsOptional | app/schemas/stk.py:87-88 | a plus before a number that has none changes nothing |
| Msisdn.SeparatorsDoNotMatter | app/schemas/stk.py:85 | separators may stand anywhere in any number |
| Msisdn.NormaliseIsIdempotent | app/schemas/stk.py:81-106 | normalising a result changes nothing |
| Msisdn.AgreeIffLastNine | app/schemas/stk.py:101-106 | two accepted numbers agree exactly when their last nine digits do |

## Left out

- StkService.STKService.InitiateStkPush: cancellation and crashes in the middle of this method's own run are steps of the transition system (`Cancel`, `Crash`) and covered by its theorems; the method itself runs to its end. The same holds for ProcessCallback and ExpireStalePendingPayments.
- StkService.STKService.CreatePending: flush and commit are one step here, since nothing of the flush is visible to others before the commit.
- CallbackRetry.CallbackTask.ProcessCallback: the job is modelled with its own row, guard and clock; each of its runs is one of the protocol (`CallbackRetry.RunIsOfTheProtocol`), but other callbacks and the sweep, which may touch the same row between two runs, move in the transition system only.
- Payments.PaymentRepository.MarkCompleted: `updated_at`, which every update sets to the current time, is not carried; only the status endpoint reads it.
- Payments.PaymentRepository.MarkFailed: `updated_at` is not carried either.
- Payments.PaymentRepository.UpdateDarajaIds: `updated_at` is not carried either.
- CallbackRetry.ReleasedGuardApplies: the repair releases the guard on every exit by an exception, a failed lookup included, which is more than the rollback blocks of app/services/stk.py:265-267 and 285-287.
- TokenBucket.BucketKey.Script: tokens and times are reals; the formatting of floats in Lua and their decimal text in Redis are not modelled.
- TokenBucket.ResolveLimit: the middleware's dispatch around it, which lets a request through when Redis fails and otherwise turns a denial into a 429, is a single branch each.
- HTTP, JSON, SQL and Redis drivers and Celery's broker: each call is a step that succeeds, fails, or takes effect unseen.
- Waits and jitter between tenacity's attempts: only the count and the exit matter.
- SHA-256 and json.dumps: the hash is an arbitrary function with non-empty digests free of the delimiter, the payload an arbitrary string.
- The account reference and description, response code and customer message: carried along unchanged; the parsing of a transaction date is library code.
- CallbackMetadata.to_dict and extract_payment_details in app/schemas/stk.py: the receipt and the amount of a callback are arbitrary optional values.
- Amounts are whole numbers, as the request schema demands; the upper limit of 300,000 plays no part.
- The status endpoint, the asynchronous initiation job, app/daraja/query.py, app/schemas/c2b.py, app/exceptions.py, authentication middleware, routes, health checks, logging and settings loading: plumbing or single-branch checks.
- The features of docs/PRD.md that have no code yet.
