# Stock, money and orders: a verified model

Orders and payments live in one database, the stock ledger in another, and the two
cannot commit together. The shop keeps them consistent with row-locked ledger
transactions, idempotency keys, a transactional outbox, compensation and a TTL sweep.
This project models that protocol and proves what it keeps, over every run.

How the files fit together:

- `Totals`, `Lines`, `Books`, `Ledgers`: the ledger's tables, its transactions as steps
  of a state machine, and the invariants of every run. `LocalProvider` is the in-process
  provider, loops that update rows in place, proved equal to those steps.
- `Saga`, `LedgerEffects`, `SagaInvariant`, `SagaRuns`, `SagaTheorems`: the two databases
  as one machine whose moves are committed transactions; attempts may crash, replay or
  lose a reply between any two of them. `WorldOk` holds in every state of every run;
  `HeardRuns` adds what holds when replays are answered, `DeafReplays` what happens when
  one is not. `SagaExamples` reaches the states in which a promise breaks.
- `Fulfilment`, `Payments`, `Refunds`, `Reconciliation`, `Checkout`, `Outcomes`: the
  Orders-side code as it runs, with rows written in place and rolled back; each method
  returns a ghost trace and proves it ends where that run of the machine ends.
- `Services`, `ServiceHandlers`, `ServiceAnswers`, `Returns`: the remote ledger behind
  keyed requests, what each route answers and does, and its clamp on returns.
  `Breakers`, `Http`, `Calls`: the client's retry loop and breaker, and where a call ends.
  `TwoLedgers`: the two ledgers mean the same.
- `RowLocks`, `LockCoverage`: deadlock freedom, and that the locks cover what is written.
  `Outbox`: the drainer. `OrderNumbers`: gapless numbers.

Hashes are taken to be injective, `uuid4` ids to be fresh and different from every
`shortfall-...` id. Times, jitter, network outcomes, database faults and handler
behaviour are parameters of the methods.

Where the code and its comments disagree, the model follows the code:

- `apps/payments/holds.py:122-129` counts a shortfall as covered without reading what
  the commit returned. A replay after the replacement expired finishes with no sale
  (`UnsoldFulfilmentHappens`); `FulfilmentExact` and `AttemptSells` give the exact condition.
- `apps/payments/holds.py:83-90` marks a receipt UNKNOWN only if it was ACTIVE. A
  redelivered attempt whose commit reply is lost for a receipt already COMMITTED forgets
  what it sold and sets out to sell it again. This needs the remote ledger: the
  in-process one always replies. Two promises fail there. A line can be sold twice
  (`DoubleSaleHappens`; `AtMostOnceExactly` and `DeafReplaySellsAgain` say exactly when),
  and then its refund returns it once (`RefundExact`). And the attempt can finish with a
  `stock.commit` message still queued (`QueuedCommitHappens`; `NoneQueuedExactly` and
  `DeafExactly` say exactly when), although redelivering it changes nothing. At-most-once
  sale and refund neutrality are also stated outright for runs that are heard, meaning no
  commit reply is lost for a receipt already consumed.
- `apps/payments/holds.py:183-190` never looks at the order's status, so a cancelled,
  unpaid order can be sold stock (`UnpaidSaleHappens`, `SaleImpliesPaidExactly`).
- `apps/core/http.py:201-252` keeps only the last error, and takes every ConnectionError
  for a connection never made, so `ServiceUnavailable` means "no state changed" exactly
  when the policy makes one attempt over a network that aborts no connection after its
  request (`UnavailableExactly`);
  and after a cooldown it lets every caller through, not a single probe (`HalfOpen`).
- `apps/inventory/providers/local.py:271-298` lists a group's active rows and releases them
  one transaction at a time; a release raises exactly when its row was sold in between
  (`ReleaseRaisesExactly`). `ReleasesInterleaved` and `SweepInterleaved` cover any other
  transactions among them.
- `services/inventory/api.py:342-348`: releasing an id before it is reserved burns its
  release key (`EarlyCallBurnsKey`, `EarlyGiveBackDiverges`).
- `apps/orders/outbox.py:27-29` speaks of a bit over an hour of retrying; the scheduled
  delays total at least 127 and under 381 seconds. Lines 87-89 say a crash counts as a
  try; it does, but nothing reads the count before delivery (`CrashLoopUnbounded`).
- `apps/inventory/providers/local.py:52-60` ignores the order of lines only when their
  variants are distinct (`FingerprintSeesOrderOfDuplicates`).

## Model

| member | source | states |
|---|---|---|
| Lines.FingerprintExact | apps/inventory/providers/local.py:52-60 | Two payloads have one fingerprint exactly when they ask each variant for the same quantities in the same order |
| Lines.FingerprintIgnoresOrder | apps/inventory/providers/local.py:52-60 | With distinct variants, one fingerprint exactly when the lines are the same up to order |
| Lines.FingerprintSeesOrderOfDuplicates | apps/inventory/providers/local.py:52-60 | A variant named twice with two quantities: reordering the payload changes the fingerprint |
| Books.GuardsNeverFire | apps/inventory/providers/local.py:79-94 | In a sound book an active hold can always be sold or given back; the underflow guards cannot fire |
| Books.NoOversell | apps/inventory/models.py:14-43 | Units sold plus units held never exceed units stocked |
| Ledgers.EveryRunIsSound | apps/inventory/providers/local.py:217-236 | Over any interleaving: reserved is the sum of active holds, on hand is opening plus movements, sales match committed holds one to one, nothing is oversold, no guard fires |
| Ledgers.EachHoldEndsOnce | apps/inventory/providers/local.py:288-335 | Once a hold has left ACTIVE, no later run changes it |
| Ledgers.ReservationExact | apps/inventory/providers/local.py:186-237 | A fresh id is reserved if and only if the summed demand of every variant, duplicates included, fits its availability; success raises reserved by exactly that, failure changes nothing |
| Ledgers.ReserveRefused | apps/inventory/providers/local.py:217-236 | A refused reserve of an unclaimed id names the first line, in variant order, that the shelf cannot take on top of those before it, and whether its quantity, its stock record or its availability is at fault |
| Ledgers.ReserveReplay | apps/inventory/providers/local.py:199-215 | After any other steps a repeated reserve changes nothing and is accepted if and only if it asks for the same |
| Ledgers.CommitReplay | apps/inventory/providers/local.py:258-268 | After any other steps a repeated commit changes nothing and returns the same totals |
| Ledgers.RestoreReplay | apps/inventory/providers/local.py:132-142 | A completed refund is never repeated; a changed refund payload is refused |
| Ledgers.CommitBeforeReserveIsNotFinal | apps/inventory/providers/local.py:239-269 | Committing any id nobody reserved succeeds with nothing and fixes nothing: the commit after any reserve that fits sells every unit reserved |
| Ledgers.ReleaseRaisesExactly | apps/inventory/providers/local.py:288-298 | In any sound ledger, whatever ran before, a row release raises exactly when the row is missing or was sold |
| Ledgers.ReleaseExactly | apps/inventory/providers/local.py:288-298 | A row release gives back its row if it is active and changes no other |
| Ledgers.ExpireExactly | apps/inventory/providers/local.py:380-390 | An expiry ends its row if and only if it is active and its time is up, to the second, and changes no other |
| Ledgers.ReleasesInterleaved | apps/inventory/providers/local.py:271-286 | Among any other transactions, once each listed row's release has run, no row of the reserved group is active |
| Ledgers.SweepInterleaved | apps/inventory/providers/local.py:367-394 | Among any other transactions, once each overdue row's expiry has run, none of them is active |
| Ledgers.StepKeeps | apps/inventory/providers/local.py:170-365 | Every ledger transaction keeps every invariant and only adds to history |
| Ledgers.PkOrderIsVariantOrder | apps/inventory/providers/local.py:186-237 | Inside a group that a reserve wrote, primary keys climb with variants |
| LocalProvider.Provider.ReserveLines | apps/inventory/providers/local.py:170-237 | The claim, the loop and its rollback are one Reserve step; the rows returned are the new ones, or on a replay the group's |
| LocalProvider.ReserveReturnsGroup | apps/inventory/providers/local.py:199-237 | A first reserve returns exactly the group's rows, as its replays do |
| LocalProvider.GroupPksExactly | apps/inventory/providers/local.py:211-215 | A replay names exactly the rows of its group, ascending |
| LocalProvider.Provider.CommitReservation | apps/inventory/providers/local.py:300-335 | One active hold becomes a sale with its movement, or nothing changes and the reason is returned |
| LocalProvider.Provider.CommitHolds | apps/inventory/providers/local.py:239-269 | The loop over the group and its rollback are one Commit step; the totals returned are the group's committed units |
| LocalProvider.Provider.EndActiveReservation | apps/inventory/providers/local.py:79-94 | Gives exactly the hold's units back and ends it, or changes nothing |
| LocalProvider.Provider.ReleaseReservation | apps/inventory/providers/local.py:288-298 | Idempotent for ended holds, refused for a sale, otherwise one Release step |
| LocalProvider.Provider.ReleaseHolds | apps/inventory/providers/local.py:271-286 | Uninterrupted: every active hold of the group is released, no other row changes, it does not raise, and an unknown id releases nothing |
| LocalProvider.Provider.ReleaseExpiredReservations | apps/inventory/providers/local.py:367-394 | Uninterrupted: no overdue hold is active afterwards, nothing else changed, and the count is the number ended |
| LocalProvider.Provider.AdjustStock | apps/inventory/providers/local.py:337-365 | One Adjust step, with every refusal of the source |
| LocalProvider.Provider.RestoreOrderStock | apps/inventory/providers/local.py:127-168 | The key, the loop of clamped returns and the rollback are one Restore step |
| LocalProvider.ReleasesNeverRaise | apps/inventory/providers/local.py:271-286 | A release loop that nothing interrupts raises at none of its rows, for all its own earlier releases did |
| LedgerEffects.RestoreExact | apps/inventory/providers/local.py:143-168 | A first refund succeeds if and only if the shop keeps every variant it names and no quantity is negative; each variant then comes back by what the lines ask, duplicates summed, up to what was sold and had not come back, and the shelf count rises by as much |
| SagaRuns.MoveKeeps | apps/payments/holds.py:229-242 | Every committed transaction of either database, replies lost or not, keeps every invariant of the shop |
| SagaTheorems.AtMostOnceSale | apps/payments/holds.py:47-137 | In heard runs, under any attempts, redeliveries, crashes and sweeps, an order is never sold more of a variant than it ordered |
| SagaTheorems.AtMostOnceExactly | apps/payments/holds.py:106-137 | In every run, "no line is oversold" survives a move if and only if the move is not the sale of an active replacement of a line the order's own group already sold |
| SagaTheorems.SoldWhole | apps/payments/holds.py:47-137 | In every state of every run a line is unsold, sold whole, or sold whole twice; never in part, never more |
| SagaTheorems.FulfilmentExact | apps/payments/holds.py:94-137 | In every run, when an attempt finishes, a line has been sold in full if and only if its own group sold it or no replacement hold of it was released or expired |
| SagaTheorems.FulfilmentOnce | apps/payments/holds.py:94-137 | In heard runs, when an attempt finishes, exactly the ordered units are sold if and only if no replacement hold of the line was released or expired |
| SagaTheorems.RefundNeutrality | apps/orders/refunds.py:38-48 | In heard runs a delivered refund succeeds, and in every later state the order's returned units equal its sold units |
| SagaTheorems.RefundExact | apps/orders/refunds.py:38-48 | In every run a delivered refund succeeds, and ever after the order's returned units are its sold units up to what it ordered; neutral if and only if it was not oversold |
| SagaTheorems.AtomicPaymentIntent | apps/payments/holds.py:208-226 | In every state of every run: paid-like status, a PAID payment and exactly one fulfilment message are one and the same; refunded means exactly one restore message |
| SagaTheorems.AttemptsBeginExactly | apps/payments/holds.py:233-241 | In every state of every run an attempt can begin if and only if no other holds the order and it is paid, packed, shipped or delivered; a running attempt keeps it so |
| SagaTheorems.StatusSteps | apps/orders/models.py:25-33 | Whatever the move, a status stays or takes one of the nine steps of an order's life |
| SagaTheorems.StepsOpen | apps/orders/models.py:184-220 | Each of those steps but the payment's can be taken whenever no attempt holds the order, and changes nothing else of it |
| SagaTheorems.ConfirmReplayIsIdle | apps/payments/providers/simulated.py:40-68 | In every run: ever after a confirmation a repeat finds the payment taken and changes nothing; ever after a cancellation a late payment can only be refused |
| SagaTheorems.NoLooseEnds | apps/payments/holds.py:62-103 | In every state of every run: no paid order has a receipt in doubt, a receipt recorded as consumed names a group with nothing left to sell, and redelivering any stock commit changes nothing |
| SagaTheorems.NoCommitQueued | apps/payments/holds.py:62-103 | In heard runs no stock commit is ever queued |
| SagaTheorems.NoneQueuedExactly | apps/payments/holds.py:63-92 | "No stock commit is queued" survives a move if and only if the move is not the end of a deaf attempt |
| SagaTheorems.DeafExactly | apps/payments/holds.py:78-92 | In every run an attempt is deaf exactly from an unanswered commit of a receipt already consumed until the attempt ends |
| SagaTheorems.SaleImpliesPaidExactly | apps/payments/holds.py:161-202 | In every run, "every sale belongs to a paid order" survives a move if and only if the move is not a reconciliation of a group that still holds stock |
| DeafReplays.DeafReplaySellsAgain | apps/payments/holds.py:83-137 | In every run, a deaf replay leaves any line it reaches sold twice if and only if the order's own group sold it, and a replacement had sold it before, or every line up to it is already claimed or can be supplied and its replacement was not lost |
| SagaExamples.UnpaidSaleHappens | apps/payments/holds.py:183-202 | A reachable run in which reconciliation sells stock for a cancelled, unpaid order |
| SagaExamples.UnsoldFulfilmentHappens | apps/payments/holds.py:106-137 | A reachable run in which fulfilment finishes with nothing sold |
| SagaExamples.DoubleSaleHappens | apps/payments/holds.py:47-137 | A reachable state from which a deaf replay sells two units for one ordered |
| SagaExamples.QueuedCommitHappens | apps/payments/holds.py:63-92 | A run after which an attempt can finish with a stock commit still queued, where none was before |
| Fulfilment.Shop.CommitReceipt | apps/payments/holds.py:62-103 | The instruction is enqueued, the ledger asked, and the row settled: retired and COMMITTED on a reply, queued and UNKNOWN without one |
| Fulfilment.Shop.CommitReceipts | apps/payments/holds.py:47-103 | The receipts loop, written in place, is a run of the machine; a raising commit ends the attempt |
| Fulfilment.IntentsExact | apps/payments/holds.py:62-92 | One commit instruction per held or consumed receipt, in their order, still queued exactly where the commit went unanswered |
| Fulfilment.Shop.CoverLine | apps/payments/holds.py:114-137 | Reserve under the stable key, then commit; which errors become "incomplete" and which propagate |
| Fulfilment.Shop.CoverShortfall | apps/payments/holds.py:106-137 | The items loop is a run of the machine and writes nothing of Orders |
| Fulfilment.Shop.DeliverOrderStock | apps/payments/holds.py:229-242 | Missing and unpaid orders raise, cancelled and refunded ones are left alone; for a paid, packed, shipped or delivered one a run of the machine begins; if it raises, orders and outbox are as before though ledger commits stay; if it returns, no receipt was in doubt, every held receipt is consumed, each instruction recorded, and the totals returned cover every item; in process it is not given up before it finishes or the ledger refuses |
| Outcomes.AttemptSells | apps/payments/holds.py:94-137 | Judged before it starts: an in-process attempt that returns sells a line in full if and only if no replacement hold of it had been released or expired |
| Payments.TransitionTo | apps/orders/models.py:184-220 | The status changes if and only if the step is one of the nine allowed, and nothing else does |
| Payments.ConfirmOrderPaid | apps/payments/providers/simulated.py:40-68 | Payment, status and instruction commit together or not at all; False exactly for a payment already taken, an error exactly where there is none to confirm or the order may not become paid |
| Payments.SimulateFailure | apps/payments/providers/simulated.py:70-90 | A pending payment fails and its order is cancelled, together or not at all |
| Payments.ConfirmAndAttempt | apps/payments/holds.py:208-226 | After a first confirmation an attempt is made; its success consumes the held receipts and retires the instruction, its failure leaves the order paid and the instruction queued |
| Payments.CallsExactly | apps/orders/admin.py:281-282 | A loop of releases stops at the first call that raises, and at no other |
| Payments.ReachedExactly | apps/orders/admin.py:281-282 | The groups it reached are those of the calls it made whose request was sent |
| Payments.MarkAsCancelled | apps/orders/admin.py:266-301 | Succeeds exactly when cancelling is allowed and every release is answered; then no held receipt's group has an active hold; a release that raises rolls the cancellation back; only rows of the groups it reached change |
| Refunds.MarkAsRefunded | apps/orders/admin.py:302-328 | The transition and the durable restore instruction commit together or not at all |
| Refunds.RestoreRefunded | apps/orders/refunds.py:38-48 | A run of the machine that changes holds of the groups it names only; from any reachable state, its releases answered, it succeeds, settles every group it names, leaves the order neutral and stays within what is reachable |
| Reconciliation.ReconcileHold | apps/payments/holds.py:183-202 | One commit per request sent; a row becomes COMMITTED exactly after an answered, accepted commit, with its group settled; an unavailable ledger leaves it for the next sweep |
| Reconciliation.ReconcileUnknownHolds | apps/payments/holds.py:161-202 | The sweep is a run of the machine: it saves exactly the rows it counts, each only once its group is settled, and asks the ledger once per request sent; over the in-process ledger it resolves every row it read or dies of an exception |
| Reconciliation.DeliverStockCommit | apps/payments/holds.py:140-158 | Succeeds exactly when the commit does; then the group is settled and its receipts, and no others, are marked; a raising commit changes nothing |
| Checkout.AddQuantity | apps/orders/checkout.py:64-81 | Merging one line keeps one line per variant and adds exactly its units |
| Checkout.ParseItems | apps/orders/checkout.py:64-81 | A cart is accepted if and only if it is well formed; merging loses and invents no unit |
| Checkout.MakeBill | apps/orders/checkout.py:130-132 | Each line at its current price; total is the sum of price times quantity plus the fee |
| Checkout.SecureStock | apps/orders/checkout.py:139-168 | Stock is held for exactly the cart; an uncertain reserve is compensated; any other refusal changes nothing; no other hold is touched |
| Checkout.BuildOrder | apps/orders/checkout.py:171-207 | Number, order, bill and receipt are written together, or a fault rolls all of them back |
| Checkout.BuiltInExactly | apps/orders/checkout.py:209-231 | The retry loop builds exactly when some attempt within its limit meets no fault and every one before it was a deadlock victim |
| Checkout.BuildWithRetries | apps/orders/checkout.py:209-231 | Succeeds exactly when within three attempts only deadlocks precede a clean one and the year has a number left; otherwise nothing is written |
| Checkout.CompensateSession | apps/orders/checkout.py:241-265 | The checkout's own holds given back and no other; every receipt of the order RELEASED if the release answered and UNKNOWN otherwise; order cancelled |
| Checkout.PlaceOrder | apps/orders/checkout.py:84-267 | Succeeds exactly when the cart screens and is in stock, the reserve answers, the order builds within three attempts and the session opens; every exit is one pending order whose active group holds exactly its lines with an exact total and the next number, or, when the release answers, no active hold under the id; the exit of a failed session leaves that order unpayable, its receipt RELEASED or UNKNOWN by the release's answer; every other refusal leaves Orders as it was and is the first check that failed; no exit touches any other hold |
| Services.AtMostOncePerKey | services/inventory/idempotency.py:71-149 | Over any traffic a key applies at most one mutation, and is recorded exactly when it did |
| Services.RecordedKeyReplays | services/inventory/idempotency.py:108-138 | Later requests under a recorded key change nothing: same body, the stored answer; different body, 422 |
| Services.SuccessIsStored | services/inventory/idempotency.py:141-149 | Every success carries the stored answer; every refusal changes nothing |
| Services.EarlyCallBurnsKey | services/inventory/api.py:342-362 | A release or commit that finds nothing still spends its key, so no later one by that key does anything |
| ServiceAnswers.RefusedAtOnce | services/inventory/idempotency.py:71-138 | Malformed requests, adjustments without a key and requests under a used key get 422, 400, 422, 409 or the stored answer, and change nothing |
| ServiceAnswers.ServedOnce | services/inventory/api.py:167-365 | A request under a new key is served by its route; a success is recorded under that route and key, with 201 or 200 and its own reply; holds last fifteen minutes unless asked otherwise |
| ServiceAnswers.ReserveGranted | services/inventory/api.py:194-243 | A reserve is granted if and only if its summed demand fits, and names exactly the rows it added |
| ServiceAnswers.ReserveDenied | services/inventory/api.py:198-222 | Otherwise it answers 404 or 409 for the first line, in variant order, that does not fit |
| ServiceAnswers.SelectedExactly | services/inventory/api.py:265-274 | A handler locks exactly the active rows it asks for, each once, by variant and then by key |
| ServiceAnswers.CommitAnswers | services/inventory/api.py:276-322 | Over a sound book a commit never fails; it sells exactly the group's active rows and reports their lines |
| ServiceAnswers.ReleaseAnswers | services/inventory/api.py:350-365 | Over a sound book a release never fails; it releases exactly the group's active rows and counts them |
| ServiceAnswers.SweepExpires | services/inventory/api.py:498-516 | The sweep expires exactly the active rows whose time is up, to the second |
| ServiceAnswers.TrafficIsSound | services/inventory/api.py:167-516 | Over any traffic the remote ledger keeps every invariant of the in-process one: counters, matching of sales, no oversell, no guard fires |
| Returns.AcceptedReturn | services/inventory/api.py:446-470 | An accepted return that names an order brings back all of it if so much is out and never more than is out; shelf and trail gain the same units |
| Returns.AcceptedInFull | services/inventory/api.py:446-482 | Any other accepted adjustment counts in full |
| Returns.AdjustRefusals | services/inventory/api.py:422-470 | Which adjustments are accepted, and which get 400, 404 and 409, each exactly when |
| Returns.NoOverReturn | services/inventory/api.py:446-461 | Over any traffic from an empty table no order gets back more of a variant than it was sold |
| ServiceHandlers.Server.Claim | services/inventory/idempotency.py:71-138 | Inserts the in-flight row, or resolves the existing one to a reuse, in-progress or replay answer |
| ServiceHandlers.Server.HoldLines | services/inventory/api.py:194-229 | The reserve loop in variant order, with its refusals |
| ServiceHandlers.Server.SellLocked | services/inventory/api.py:279-307 | The commit loop sells each locked row, or refuses where the shelf cannot cover it |
| ServiceHandlers.Server.ReleaseAll | services/inventory/api.py:368-394 | Ends each row and gives its units back, guarding against underflow |
| ServiceHandlers.Server.Adjust | services/inventory/api.py:422-493 | Every refusal of an adjustment, and the clamp on returns that name an order |
| ServiceHandlers.Server.Respond | services/inventory/api.py:167-365 | Claim, mutate, record, commit; anything raised rolls back all of it, the claim included |
| ServiceHandlers.Server.ExpireReservations | services/inventory/api.py:498-516 | The sweep is one transaction over all overdue rows, and counts them |
| Breakers.CircuitBreaker.Check | apps/core/http.py:104-114 | Refuses exactly during the cooldown, forgets an elapsed opening, touches no other key |
| Breakers.CircuitBreaker.RecordFailure | apps/core/http.py:123-131 | Counts, and opens at the threshold unless already open |
| Breakers.CircuitBreaker.RecordSuccess | apps/core/http.py:116-121 | Closes the key's breaker |
| Breakers.BreakerIsHistory | apps/core/http.py:89-137 | The count is the failures since the last success; it is open exactly while an opening of the history is in force; open implies the threshold was met |
| Breakers.RefusesExactly | apps/core/http.py:104-114 | A check refuses if and only if an opening in force is younger than the cooldown |
| Breakers.HalfOpen | apps/core/http.py:104-131 | After the cooldown every check passes, one failure reopens at once, one success closes |
| Http.PerformCall | apps/core/http.py:201-252 | The retry loop, its taxonomy and its breaker end where the recursive account of one call ends |
| Calls.NextAttempt | apps/core/http.py:209-252 | After a timeout, a lost or refused connection, a transport fault or a 5xx that is retried, with attempts left, the call goes on as a call on the remaining attempts |
| Calls.FaultEnds | apps/core/http.py:240-243 | A 5xx that is not retried ends the call as uncertain, whatever attempts are left, with the service where that attempt left it |
| Calls.CallEnds | apps/core/http.py:201-252 | A call the breaker does not stop ends with the first attempt that is answered or meets a fault nobody retries, or with its last; that attempt alone decides the outcome; the service has seen exactly the requests that arrived; an answer closes the breaker, otherwise each attempt is one failure |
| Calls.CallStopped | apps/core/http.py:104-114 | A call the breaker stops is unavailable, and its stopped attempt sends nothing |
| Calls.CallIsDecided | apps/core/http.py:201-252 | Every call is one or the other |
| Http.CallAppliesAtMostOnce | apps/core/http.py:174-252 | For any lost requests, lost replies and 5xx, and any other traffic meanwhile, a keyed call applies at most once |
| Http.SuccessIsExactlyOnce | apps/core/http.py:223-228 | A call under a fresh key that returns was applied exactly once, and returns the body stored by that application |
| Http.RejectedIsNotApplied | apps/core/http.py:230-234 | A rejected call applied nothing in any attempt |
| Http.UnavailableExactly | apps/core/http.py:61-62 | "No state changed" holds for every state, request and traffic if and only if the policy makes one attempt and the network aborts no connection after its request |
| Http.LostReplyMisreported | apps/core/http.py:209-221 | Any request that would apply can be applied by a call that ends Unavailable, with two or more attempts |
| TwoLedgers.TwoLedgersOneMeaning | apps/inventory/providers/service.py:176-322 | On every run where ids are reserved before they are sold or given back, commits name one order, and adjustments are distinct and no order-referenced returns, both ledgers hold the same tables and report the same totals |
| TwoLedgers.TameSnoc | apps/inventory/providers/service.py:176-322 | Which call such a run can go on with: any reserve or sweep, a sale of a reserved id to its order, its return, a new adjustment that is no return of an order, and nothing else |
| TwoLedgers.StepAlike | services/inventory/api.py:167-516 | One call keeps the two ledgers alike |
| TwoLedgers.SelectedEnds | services/inventory/api.py:498-516 | The service's one transaction in variant order ends what the provider's row transactions end |
| TwoLedgers.SellsTheSame | services/inventory/api.py:265-307 | The service sells the rows the provider's loop sells, in the same order |
| TwoLedgers.RepeatedCorrectionDiverges | apps/inventory/providers/service.py:304-307 | The same correction twice counts twice in process and once remotely |
| TwoLedgers.EarlyGiveBackDiverges | services/inventory/api.py:342-362 | An id given back before it is reserved keeps its hold remotely and loses it in process |
| RowLocks.NoWaitCycle | apps/inventory/providers/local.py:3-8 | In no reachable state do transactions that follow the lock order wait in a circle |
| RowLocks.Progress | apps/inventory/providers/local.py:3-8 | While any such transaction is unfinished, some transaction can take its next step |
| RowLocks.CommittingPlan | apps/inventory/providers/local.py:252-263 | A commit's locks follow the order, because of how its group was written |
| RowLocks.LedgerPlans | apps/inventory/providers/local.py:127-365 | Every in-process ledger transaction takes its locks in order and frees them |
| LockCoverage.LocksExactly | apps/inventory/providers/local.py:79-365 | The locks each ledger transaction takes, as a set, none freed before its end |
| LockCoverage.LedgerCovers | apps/inventory/providers/local.py:3-8 | Whatever existing hold, counter or key a ledger transaction changes, its program has taken that row's lock |
| LockCoverage.OrdersTxCovers | apps/orders/models.py:184-220 | Whatever existing order, receipt, payment or message an Orders transaction changes, its program holds that row's lock at its end, whatever ledger transactions ran inside |
| RowLocks.DeadlockFree | apps/payments/holds.py:233-242 | For any number and interleaving of the shop's transactions, ledger transactions nested in Orders transactions that hold an order row and save its receipt among them, no lock has two owners, nobody waits in a circle and somebody can go on; year, payment, receipt and message rows included |
| RowLocks.AllFinish | apps/inventory/providers/local.py:3-8 | From every such state, letting running transactions go on, with none rolled back, brings all of them to their end with every lock freed |
| Outbox.Drainer.Enqueue | apps/orders/outbox.py:47-60 | A new message is pending, unattempted and due at once; no other row changes |
| Outbox.Drainer.Claim | apps/orders/outbox.py:80-94 | Exactly the first due rows up to the batch size get one attempt more |
| Outbox.ClaimedExactly | apps/orders/outbox.py:80-86 | The claim takes the first due rows, in order, and leaves a due row only when the batch is full of earlier ones |
| Outbox.Drainer.DeliverOne | apps/orders/outbox.py:104-141 | Sent, dead, rescheduled, or a crash that writes nothing |
| Outbox.BackoffTable | apps/orders/outbox.py:63-66 | The wait doubles with each attempt up to 256 seconds and is 300 from the ninth on, times the jitter |
| Outbox.Drainer.Drain | apps/orders/outbox.py:69-101 | Each claimed row is attempted once, in order, until a crash, and those whose handlers returned are counted; a crash leaves the bumps |
| Outbox.DrainIsBounded | apps/orders/outbox.py:30-31 | While handlers return or raise no row gets a ninth attempt, and the attempts left over pending rows strictly fall with each non-empty drain |
| Outbox.BacklogEnds | apps/orders/outbox.py:69-101 | So at most eight drains per row can claim anything |
| Outbox.FailingMessageDies | apps/orders/outbox.py:63-141 | A message that always fails is dead after exactly eight attempts, with scheduled delays of at least 127 and under 381 seconds |
| Outbox.PendingExactly | apps/orders/outbox.py:90-115 | A message is still pending after any number of attempts if and only if none returned and every one from the eighth on crashed |
| Outbox.CrashLoopUnbounded | apps/orders/outbox.py:90-94 | A handler that always takes its worker down is attempted without bound |
| OrderNumbers.OrderNoOrder | apps/orders/services.py:38-38 | MD-YYYY-NNNNN is injective and sorts as year and number do |
| OrderNumbers.OrderNoReads | apps/orders/services.py:38-38 | An order number is MD, the year in four decimal digits and the number in five |
| OrderNumbers.OrderSequence.NextOrderNo | apps/orders/services.py:17-38 | The next number of the year, or an error that leaves the row alone, each exactly when |
| OrderNumbers.GaplessNumbers | apps/orders/services.py:31-38 | Over any interleaving with rollbacks a year's committed numbers are 1, 2, ..., last, never above 99,999 |
| OrderNumbers.AllocationIssues | apps/orders/services.py:28-38 | Nothing but an open transaction of the same year, or the year's end, stops an allocation; it takes the next number, which its commit issues and its rollback gives back |
| OrderNumbers.NumbersUnique | apps/orders/models.py:98-98 | No two committed orders share a number |

## Left out

- `reserve_stock`: a single-line variant of `reserve_lines` with no caller.
- Isolation levels, gap locks, insert locks on rows not yet visible, and lock timeouts: transactions are atomic steps, row locks are ideal; a 409 for a request still in progress is never seen between transactions.
- RowLocks.LedgerPlans: does not model the locks a reserve's own new rows take when they are inserted, because nobody can see those rows before it commits.
- Reconciliation.ReconcileUnknownHolds: does not model which doubtful rows the query returns, nor its limit of 100; the rows read are a parameter.
- Column widths: quantities and totals are unbounded integers.
- Hashing, JSON, signatures, tokens, correlation ids and logging; session keys and order numbers inside request bodies.
- Configuration checks before a call (missing URL, token, or key with several attempts).
- Services.AtMostOncePerKey: does not model a record being deleted or a hash collision.
- The provider's mapping of client errors to `ReservationUnavailable` and `InsufficientStock`.
- SagaTheorems.AtMostOnceSale: is stated for heard runs, because it is false otherwise (`DoubleSaleHappens`); `AtMostOnceExactly` covers every run.
- SagaTheorems.RefundNeutrality: is stated for heard runs, because it is false otherwise; `RefundExact` covers every run.
- SagaTheorems.FulfilmentOnce: is stated for heard runs; `FulfilmentExact` covers every run.
- RowLocks.DeadlockFree: does not model locks on rows a transaction has just inserted, because nobody can see those rows before it commits.
- LocalProvider.Provider.ReleaseHolds: runs without interruption; what other transactions among its row transactions can change is `ReleasesInterleaved` and `ReleaseRaisesExactly`.
- LocalProvider.Provider.ReleaseExpiredReservations: runs without interruption; `SweepInterleaved` covers the rest.
- A checkout that dies between reserving and building keeps its cart in the machine, which can then still become an order; the code cannot do that, so the machine allows more runs than the code.
- Outbox.FailingMessageDies: keeps the jitter's range and not its distribution; one drainer only, so `skip_locked` never skips.
- Notifications and messages sent on a transition; shipping and packing beyond their transitions.
- Order, customer and product deletion; the legacy single-database layout.
- Storefront, catalog, shipping zones, money formatting, login throttle, courier and PayMongo I/O.
- Guards on direct ORM writes (`Order.save`, bulk updates, append-only movements): the model has no other writers.
