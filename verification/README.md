# Sellaf API: payments, accounts and error flattening

A Dafny model of the parts of the Sellaf API whose behaviour spans several handlers, and proofs about it.

**Payments and subscriptions.** Transactions, subscriptions and the two job queues are tables; Flutterwave and
Coinbase webhooks, redirect verification, cancelling, renewing and the renew job are events that rewrite them.
`Payments` says what each event does, `PaymentBackend` has the services as an object that updates its tables in
place and is proved to do exactly that, and the other modules prove what holds over every run: access is never
taken early, nothing is active that was never paid for, repeated and reordered deliveries converge, renewals are
spaced out, a renew job that keeps failing halfway ends as one clean attempt does.

**Accounts.** Every account request is split at each call to Keycloak or to the database (`Accounts`). Requests
interleave at these points and may stop after any of them. `AccountBackend` has the same requests as methods.
Proved are the order of the two stores (every local user exists in Keycloak, active affiliates have the verified
flag there), the conservation of users under deletion, the life of confirmation tokens and the shape of the referral relation.
`Runs` puts payment events, account steps and the clock into one transition system, so all these results are about
the same runs.

**Two small algorithms.** The flattening of nested validation errors into dotted keys, and the comparison loop of
webhook signatures.

## Files

| file | content |
|---|---|
| `Common`, `Schema` | replies and options; tables, queues, the cascade of a user deletion |
| `Calendar` | instants in milliseconds, truncating differences, adding a calendar year |
| `Payments`, `PaymentInvariants`, `PaymentTheorems` | the payment events, what each keeps, what holds over runs |
| `PaymentEffects`, `AccountEffects` | the whole state after each event and request, row by row, in every case |
| `Convergence`, `CancelRenew`, `RenewJob` | order of deliveries; cancel and renew; the renew job call by call |
| `Accounts`, `AccountInvariants`, `AccountTheorems` | the account requests call by call, what each call keeps, what holds over runs |
| `Periods` | when the current period of an active subscription is paid for |
| `Orphans` | Keycloak users without a local one: where they come from, and that they stay |
| `Runs` | the transition system of everything together |
| `Tokens`, `Referrals` | confirmation tokens; who referred whom |
| `Witnesses` | concrete runs of payment events that end where callers may not expect |
| `PaymentBackend`, `AccountBackend` | the services as mutable objects, proved against the functions above |
| `ValidationErrors`, `CryptoUtil` | flattening of errors; constant-length comparison |

## Assumptions

- A payment event is one atomic step. The source reads and then writes without a lock, so two webhooks of one
  payment that overlap inside a handler are outside the results. Account requests are not atomic, except in `Tokens`.
- `onSuccessfulPayment` and `onFailedPayment` are handed over unbound and are not awaited
  (src/payment/services/payment_webhook.service.ts:41-42, src/payment/strategy/flutterwave.strategy.ts:165); the
  model has the handlers as they are meant to be called.
- Generated reference codes and ids are fresh. A token hash matches exactly its plaintext. Keycloak accepts a
  password exactly when it is the stored one.
- In Keycloak the flag `emailVerified` survives a change of address, so a verified flag does not say that the present
  address was ever verified. Creating a user there succeeds even when Keycloak already has the address.
- A lookup without an order (`findFirst`) may return any matching row; the row is part of the event. `take: -1`
  returns the row with the largest id.
- `new Date()` is the same instant throughout one atomic step, and dates are computed in UTC.
- Foreign keys and unique columns are those of prisma/schema.prisma. `transaction.referredBy` holds an affiliate id
  in the code but references a user in the schema; the model applies the schema, so an insert whose value is no user
  id is rejected.

## Where the code differs from what it says

- `SECONDS_IN_A_DAY` is 2700 in the payment module and 86400 in the renew processor. The model has both values.
- A finished job stays in the queue under its id, and adding a job under an existing id does nothing. A renewal
  accepted after the job has run is therefore not scheduled, and one accepted while an older job is pending is left
  to that job, which may be due too early: `CancelRenew.RenewalIsScheduledIff`, `Witnesses.RenewalIsNotScheduled`,
  `Witnesses.OldJobTakesRenewal`.
- Cancelling while the plan is live leaves the job of a renewal in the queue, and it runs all the same:
  `CancelRenew.PendingIffWillRenew`, `Witnesses.CancelledJobRuns`.
- Creating a subscription again is not refused while one is active, and moves the end of its period before anything
  is paid. A payment activates the subscription whichever of its transactions it is for: `Periods.PeriodPaidIff`,
  `Periods.UnpaidPeriodComesFrom`, `Witnesses.UnpaidYear`, `Witnesses.PaidByAnother`.
- With the processor's plan already cancelled, cancelling throws unless a job is queued, because the name of the
  looked-up job is logged first: `CancelRenew.CancelWorksIff`, `Witnesses.CancelThrows`.
- A confirmed transaction can lose its status again: `PaymentTheorems.PaidIsWithdrawnIff`,
  `Witnesses.PaidIsWithdrawn`. What was paid for is therefore stated about the history of a run, not about the
  current rows.
- An error node with neither children nor constraints makes `getErrors` return an empty array and drop what was
  collected: `ValidationErrors.LeafIsLostIff`, `ValidationErrors.BareSiblingLosesLeaf`.
- Verifying looks the token up by the address of the request alone. When addresses change while it is halfway, the
  token may be another user's: `AccountTheorems.TokenIsOwnIff`, `AccountTheorems.AnotherUsersToken`.
- Two flows leave a user in Keycloak only, for good: a creation that does not reach its last call or whose address is
  taken (`Orphans.OrphanLeftIff`, `Orphans.OneOrphan`), and a deletion that stops after its row write
  (`Orphans.OrphanLeftByDeletionIff`, `Orphans.OneDeletedOrphan`). Over whole runs these are all:
  `Orphans.AbandonedIff`.
- The issue of a resent token is not in one transaction with the deletion of the old ones:
  `Tokens.OverlappingResends`.
- The terminate job that a confirmed Coinbase charge queues has no registered worker, so no step executes it.

## Model

| member | source | states |
|---|---|---|
| `CryptoUtil.SecureCompare` | src/coinbase/util/crypto_func.util.ts:10-22 | true iff both arguments are strings with the same code units; for strings the loop makes exactly as many rounds as the first has units, whatever the second one is |
| `Calendar.GuardInMilliseconds` | src/utils/date-time.util.ts:9-15 | a truncated difference exceeds n seconds iff the exact one is at least n + 1 seconds |
| `Calendar.YearIs365Or366Days` | src/subscription/services/subscription.service.ts:75-76 | a period ends 365 or 366 days after the instant it is computed from, 365 from the 29th of February |
| `Calendar.YearLosesLessThanADay` | src/payment/services/payment_webhook.service.ts:118-119 | an end computed later is less than 24 hours before one computed earlier |
| `Calendar.WhenYearGoesBack` | src/subscription/services/subscription.service.ts:75-76 | an end computed later is earlier exactly from the 28th to the 29th of one February at an earlier time of day |
| `Calendar.YearStartIsGregorian` | src/subscription/services/subscription.service.ts:76 | the days before each year are those of the Gregorian calendar, with its rule for centuries |
| `Calendar.DateRoundTrip` | src/subscription/services/subscription.service.ts:76 | the dates that years are added to correspond one to one to days |
| `ValidationErrors.GetErrors` | src/filters/bad_request_exception.filter.ts:3-34 | the recursion over the shared accumulator leaves the accumulator overridden by the list of leaves, throws iff a leaf without constraints is met, and returns the same object unless a node was lost |
| `ValidationErrors.ReplayNode` | src/filters/bad_request_exception.filter.ts:12-29 | what the routes of one node do is what the branch for it does: own path, parent path, recursion, reset or throw |
| `ValidationErrors.FlattenOverrides` | src/filters/bad_request_exception.filter.ts:3-34 | when every node has children or constraints, the last leaf stored under a key wins and other keys keep their old value |
| `ValidationErrors.CompleteIsAllLeaves` | src/filters/bad_request_exception.filter.ts:12-28 | every node has children or constraints iff the traversal meets only leaves |
| `ValidationErrors.MarksOfTree` | src/filters/bad_request_exception.filter.ts:12-28 | the traversal meets a throwing or a resetting node iff the tree has one, at any depth |
| `ValidationErrors.ThrowsIff` | src/filters/bad_request_exception.filter.ts:12-17 | the call throws iff some node of the tree has an empty list of children and no constraints |
| `ValidationErrors.KeepsAccumulatorIff` | src/filters/bad_request_exception.filter.ts:25-32 | a call that returns never loses what was collected before iff no node of the tree lacks both children and constraints |
| `ValidationErrors.LeafIsLostIff` | src/filters/bad_request_exception.filter.ts:25-32 | in a call that returns, the message stored last under a key is lost iff a node without children and constraints is visited after it; otherwise it is found |
| `ValidationErrors.BareSiblingLosesLeaf` | src/filters/bad_request_exception.filter.ts:25-32 | a failing input: a leaf is lost with a bare sibling after it, and kept with the same sibling before it |
| `ValidationErrors.EmptySiblingThrows` | src/filters/bad_request_exception.filter.ts:12-13 | a failing input: a leaf and a sibling with an empty list of children and no constraints |
| `ValidationErrors.DottedInjective` | src/filters/bad_request_exception.filter.ts:10-11 | dotted paths of plain names determine the names |
| `ValidationErrors.FlattenIsFaithful` | src/filters/bad_request_exception.filter.ts:3-34 | with plain names, distinct siblings and child lists everywhere, the result has exactly one key per leaf and keeps its messages |
| `ValidationErrors.FlattenFindsMessages` | src/filters/bad_request_exception.filter.ts:12-17 | in the flattened form of a tidy tree the messages of every leaf, one or several in their order, are found under the dotted path that leads to it |
| `PaymentEffects.TooEarlyIff` | src/subscription/queue_processors/renew_subscription_queue.processor.ts:8-27 | the renew job counts a subscription as too early exactly when 86 401 000 ms or more are left |
| `PaymentEffects.NewChargeIff` | src/payment/strategy/flutterwave.strategy.ts:153-166 | a charge counts as new exactly when the newest transaction is 2 701 000 ms old or older |
| `PaymentEffects.FirstCharge` | src/payment/services/payment_webhook.service.ts:61-68 | the whole state after a first success: the row paid with the processor's id, an inactive linked subscription active and renewing, nothing else |
| `PaymentEffects.RecurringCharge` | src/payment/services/payment_webhook.service.ts:69-127 | the whole state after a recurring charge: one paid copy of the newest row, linked, and a year from now, active and renewing, with that row |
| `PaymentEffects.RecurringChargeUnlinked` | src/payment/services/payment_webhook.service.ts:69-114 | without a subscription the copy stays and the call throws |
| `PaymentEffects.RepeatedCharge` | src/payment/services/payment_webhook.service.ts:69-88 | a repeated success changes nothing |
| `PaymentEffects.FailedCharge` | src/payment/services/payment_webhook.service.ts:90-106 | the whole state after a failed charge; a paid row is left alone |
| `PaymentEffects.PlanCancelledAtProcessor` | src/payment/strategy/flutterwave.strategy.ts:190-206 | a plan cancelled at the processor sets willRenew to false in the customer's subscription, and changes nothing else |
| `PaymentEffects.PlanCancelledForNobody` | src/payment/strategy/flutterwave.strategy.ts:190-206 | the other three replies by what exists: customer, affiliate, subscription |
| `PaymentEffects.Verification` | src/payment/services/payment.service.ts:171-221 | the whole state after a verification, for every status the service reports |
| `PaymentEffects.CoinbaseCharge` | src/payment/strategy/coinbase.strategy.ts:122-179 | which columns a created, a pending and an unlinked confirmed charge write |
| `PaymentEffects.CoinbaseConfirmed` | src/payment/strategy/coinbase.strategy.ts:145-179 | the whole state after a confirmed charge, with the job for the end of the period |
| `PaymentEffects.Creation` | src/subscription/services/subscription.service.ts:39-107 | the whole state after an accepted creation: payer, referrer, purpose and link of the new row, and the year it starts |
| `PaymentEffects.CancellationReplies` | src/subscription/services/subscription.service.ts:121-177 | each error reply of a cancellation by an exact condition; errors change nothing |
| `PaymentEffects.Cancellation` | src/subscription/services/subscription.service.ts:134-164 | the whole state after a cancellation that succeeds |
| `PaymentEffects.RenewalReplies` | src/subscription/services/subscription.service.ts:179-217 | each error reply of a renewal by an exact condition; errors change nothing |
| `PaymentEffects.Renewal` | src/subscription/services/subscription.service.ts:187-252 | the whole state after a renewal: the flag and a job for the end of the period with five attempts |
| `PaymentEffects.JobIsTooEarly` | src/subscription/queue_processors/renew_subscription_queue.processor.ts:16-33 | the job refuses exactly while the subscription is active and 86 401 000 ms or more are left, and uses up only an attempt |
| `PaymentEffects.JobCloses` | src/subscription/queue_processors/renew_subscription_queue.processor.ts:16-39 | otherwise: the whole state and the attempts left after the job, whether the creation succeeds or fails |
| `PaymentEffects.JobWithoutSubscription` | src/subscription/queue_processors/renew_subscription_queue.processor.ts:16-39 | without a subscription the job does what a creation does |
| `PaymentInvariants.PayAndActivate` | src/payment/services/payment.service.ts:269-294 | marking as paid and activating moves no link and gives access only with a paid transaction |
| `PaymentInvariants.RenewalJoins` | src/payment/strategy/flutterwave.strategy.ts:153-178 | a charge accepted as new agrees with all transactions of its reference code and is at least 2701 seconds younger |
| `PaymentInvariants.OnSuccessKeeps` | src/payment/services/payment_webhook.service.ts:61-88 | first payment, renewal and repetition keep the invariant and the limits on access |
| `PaymentInvariants.RenewWithKeeps` | src/payment/services/payment_webhook.service.ts:108-127 | so does extending the subscription with the new transaction |
| `PaymentInvariants.FlutterwaveHookKeeps` | src/payment/strategy/flutterwave.strategy.ts:147-206 | so does every Flutterwave event |
| `PaymentInvariants.VerifyKeeps` | src/payment/services/payment.service.ts:171-221 | so does verification with every remote status |
| `PaymentInvariants.CoinbaseHookKeeps` | src/payment/strategy/coinbase.strategy.ts:122-179 | so does every Coinbase event |
| `PaymentInvariants.CreateKeeps` | src/subscription/services/subscription.service.ts:39-107 | creating a subscription keeps the invariant and changes nobody's access |
| `PaymentInvariants.CancelKeeps` | src/subscription/services/subscription.service.ts:121-164 | cancelling keeps the invariant and the limits on access |
| `PaymentInvariants.RenewKeeps` | src/subscription/services/subscription.service.ts:179-204 | so does requesting a renewal |
| `PaymentInvariants.DeactivateKeeps` | src/subscription/services/subscription.service.ts:219-224 | closing a subscription inside the guard of the job keeps the invariant and the limits on access |
| `PaymentInvariants.ProcessKeeps` | src/subscription/queue_processors/renew_subscription_queue.processor.ts:16-39 | the renew job keeps the invariant and takes access only inside its guard |
| `PaymentInvariants.HandleKeeps` | src/payment/services/payment_webhook.service.ts:30-59 | every payment event keeps links, owners, lineage, periods and foreign keys, removes no row, takes access only inside the guard and gives it only with a paid transaction |
| `PaymentInvariants.DeleteUserKeeps` | prisma/schema.prisma:199-216 | the cascade of a user deletion keeps the invariant of the payment tables and changes nobody's access |
| `PaymentBackend.Backend.FindNewest` | src/payment/strategy/flutterwave.strategy.ts:147-153 | finds the transaction with the largest id of a reference code, or none |
| `PaymentBackend.Backend.FindSubscription` | src/subscription/services/subscription.service.ts:66-69 | finds the one subscription of an affiliate, or none |
| `PaymentBackend.Backend.GetAffiliateActiveSubscription` | src/subscription/services/subscription.service.ts:109-119 | finds the affiliate's active subscription, or none |
| `PaymentBackend.Backend.CreateNewTransaction` | src/payment/services/payment.service.ts:244-267 | appends the row iff its foreign keys hold and changes nothing else |
| `PaymentBackend.Backend.UpdateTransactionStatusAndProcessorTrxId` | src/payment/services/payment.service.ts:269-283 | writes status and processor id iff the status differs |
| `PaymentBackend.Backend.ActivateSubscriptionRelatedToTransaction` | src/payment/services/payment.service.ts:285-294 | activates the linked subscription iff there is one and it is inactive |
| `PaymentBackend.Backend.VerifyTransaction` | src/payment/services/payment.service.ts:171-221 | the new tables and the reply are those of the verification event |
| `PaymentBackend.Backend.RenewSubscriptionRelatedToTransaction` | src/payment/services/payment_webhook.service.ts:108-127 | starts a paid year with the new transaction; throws without a linked subscription |
| `PaymentBackend.Backend.OnSuccessfulPayment` | src/payment/services/payment_webhook.service.ts:61-88 | the new tables and the reply are those of a success delivery |
| `PaymentBackend.Backend.OnFailedPayment` | src/payment/services/payment_webhook.service.ts:90-106 | marks as failed unless paid |
| `PaymentBackend.Backend.OnSubscriptionCancelled` | src/payment/strategy/flutterwave.strategy.ts:190-206 | the customer's subscription stops renewing; the error cases are those of the lookups |
| `PaymentBackend.Backend.UseFlutterwaveWebhook` | src/payment/strategy/flutterwave.strategy.ts:147-206 | the new tables and the reply are those of the Flutterwave event |
| `PaymentBackend.Backend.UseCoinbaseWebhook` | src/payment/strategy/coinbase.strategy.ts:90-179 | the new tables, the queued terminate job and the reply are those of the Coinbase event |
| `PaymentBackend.Backend.CreateAffiliateSubscription` | src/subscription/services/subscription.service.ts:39-107 | the new tables and the reply are those of creating or restarting a subscription |
| `PaymentBackend.Backend.CancelAffiliateActiveSubscription` | src/subscription/services/subscription.service.ts:121-177 | the new tables, queue and reply are those of cancelling |
| `PaymentBackend.Backend.RenewSubscription` | src/subscription/services/subscription.service.ts:179-217 | the new tables, queue and reply are those of requesting a renewal |
| `PaymentBackend.Backend.ProcessRenewJob` | src/subscription/queue_processors/renew_subscription_queue.processor.ts:16-39 | the new tables and the reply are those of one attempt |
| `PaymentBackend.Backend.RunDueJob` | src/subscription/services/subscription.service.ts:243-251 | an attempt finishes the job when it succeeds and uses up one of five attempts otherwise |
| `PaymentBackend.Backend.Dispatch` | src/payment/services/payment_webhook.service.ts:30-59 | every handler does what the model says of its event, and so keeps the invariant and the limits on access |
| `PaymentTheorems.RowsStayOverRuns` | prisma/schema.prisma:189-269 | over every run no transaction, processor reference or subscription disappears, and what identifies a transaction stays |
| `PaymentTheorems.EndNeverFallsADay` | src/subscription/services/subscription.service.ts:71-84 | over any number of rewrites an end date never falls by a day or more |
| `PaymentTheorems.AccessIsNeverTakenEarly` | src/subscription/queue_processors/renew_subscription_queue.processor.ts:21-33 | a subscription active with end date e is active at every later point up to e minus 172 801 000 ms |
| `PaymentTheorems.NoUnpaidActivation` | src/payment/services/payment.service.ts:181-203 | an active subscription has a linked transaction that was confirmed at some earlier point |
| `Periods.PeriodPaidIff` | src/payment/services/payment_webhook.service.ts:61-127 | after any event the current period of an active subscription is paid for iff the event did not reopen it and it was renewed, confirmed, or paid before and not withdrawn |
| `Periods.UnpaidPeriodComesFrom` | src/subscription/services/subscription.service.ts:71-84 | over every run, when the transaction of an active subscription has never been paid, a creation reopened the period while it was active or another payment activated it |
| `Witnesses.UnpaidYear` | src/subscription/services/subscription.service.ts:71-84 | a failing run: a paid subscription is created again and is active for a year nobody has paid for |
| `Witnesses.PaidByAnother` | src/payment/services/payment.service.ts:285-294 | a failing run: created twice, and the first payment activates the period of the second |
| `PaymentTheorems.PaidIsWithdrawnIff` | src/payment/strategy/coinbase.strategy.ts:135-144 | a confirmed transaction loses its status exactly by a pending Coinbase charge or a verification with another status |
| `Witnesses.PaidIsWithdrawn` | src/payment/strategy/coinbase.strategy.ts:135-144 | a failing run: created, confirmed, then pending; the row is no longer paid and the subscription stays active |
| `PaymentTheorems.LinksHold` | src/subscription/services/subscription.service.ts:66-100 | in every reachable state: at most one subscription per affiliate, an active transaction exists, points back to its subscription and is active for no other, one reference code means one subscription, purpose, payer and referrer |
| `PaymentTheorems.Spacing` | src/payment/strategy/flutterwave.strategy.ts:153-166 | n transactions of one reference code span at least n - 1 gaps of 2701 seconds |
| `PaymentTheorems.RenewalRateIsBounded` | src/payment/strategy/flutterwave.strategy.ts:147-166 | in every reachable state n transactions of one code need (n - 1) * 2701 seconds since the first |
| `PaymentTheorems.SuccessDelivery` | src/payment/services/payment_webhook.service.ts:69-87 | which success deliveries give access, which add a transaction and a renewing year, and which change no subscription |
| `PaymentTheorems.BurstChangesNothing` | src/payment/services/payment_webhook.service.ts:69-87 | any burst of success deliveries on a paid transaction at most 2700 seconds old changes nothing |
| `Convergence.DeliverOne` | src/payment/services/payment_webhook.service.ts:61-106 | one delivery raises the settled status to the maximum |
| `Convergence.HighestIsMaximum` | src/payment/services/payment_webhook.service.ts:93-98 | the settled status is the maximum of the start and all verdicts |
| `Convergence.DeliveriesSettle` | src/payment/services/payment_webhook.service.ts:61-106 | every list of deliveries settles the ledger at the highest status and changes nothing else but the clock |
| `Convergence.DeliveriesConverge` | src/payment/services/payment_webhook.service.ts:61-106 | lists with the same verdicts, in any order and with any repetition, leave the same state |
| `CancelRenew.ApplyOne` | src/subscription/services/subscription.service.ts:121-217 | what each call, with the plan in any state, does to each of the states that calls lead to |
| `CancelRenew.CallsLeadTo` | src/subscription/services/subscription.service.ts:121-217 | any sequence of calls, with any plan states and any job left at the start, leads to a state determined by the slot of the queue and the last call that counts |
| `CancelRenew.SlotsFollow` | src/subscription/services/subscription.service.ts:144-164 | what the queue holds after any calls: the job from before iff no renewal was taken back with a cancelled plan; else a job of its own iff the calls end with a renewal or with one taken back with a live plan |
| `CancelRenew.PendingIffWillRenew` | src/subscription/services/subscription.service.ts:134-204 | the exact condition, for any calls and plan states, under which a job is pending (and one due in time is) iff the subscription will renew |
| `CancelRenew.OnlyLastCallMatters` | src/subscription/services/subscription.service.ts:134-204 | with the id free at the start, the last call that counts alone decides the state iff the last renewal was not taken back with a live plan |
| `CancelRenew.RenewThenCancel` | src/subscription/services/subscription.service.ts:144-164 | renewing and then cancelling with a cancelled plan restores the exact state |
| `CancelRenew.RenewalIsScheduledIff` | src/subscription/services/subscription.service.ts:187-204 | after an accepted renewal a job is pending iff no finished one is left, and one due at the end of the period is pending iff the id was free or its job was due then already |
| `Witnesses.RenewalIsNotScheduled` | src/subscription/services/subscription.service.ts:187-204 | a failing run: created, paid, cancelled, renewed, job done when due; the next renewal is accepted and nothing is queued |
| `Witnesses.OldJobTakesRenewal` | src/subscription/services/subscription.service.ts:187-204 | a failing run without a finished job: the end of the period moves while an older job is pending; the next renewal is accepted, and the old job comes days too early |
| `Witnesses.CancelledJobRuns` | src/subscription/services/subscription.service.ts:134-164 | a failing run: a renewal is cancelled while the plan is live; its job stays and opens a new year when it is due |
| `CancelRenew.CancelWorksIff` | src/queue_manager/services/queue_manager.service.ts:34-38 | with a cancelled plan, cancelling works iff a job is queued |
| `Witnesses.CancelThrows` | src/subscription/services/subscription.service.ts:144-156 | a failing run: created and paid, the plan cancelled at the processor; cancelling throws and the subscription goes on renewing |
| `RenewJob.AttemptIsProcess` | src/subscription/queue_processors/renew_subscription_queue.processor.ts:16-39 | the calls of an uninterrupted attempt add up to the atomic handler |
| `RenewJob.FailuresLeave` | src/subscription/services/subscription.service.ts:53-84 | n interrupted attempts leave the subscription as it was or closed, everything else untouched and at most n new transactions |
| `RenewJob.CompleteAttempt` | src/subscription/services/subscription.service.ts:66-84 | the attempt that completes starts the year with the newest transaction |
| `RenewJob.FailedAttemptsDoNotMatter` | src/subscription/queue_processors/renew_subscription_queue.processor.ts:16-39 | interrupted attempts followed by a complete one leave the subscription of one clean attempt, with at most one unlinked initiated transaction each |
| `AccountEffects.RegistrationRuns` | src/account/services/account.service.ts:55-115 | both stores and the reply after a whole registration: Keycloak user, user, affiliate with its referrer, and a token for 86 400 000 ms |
| `AccountEffects.ReferredRegistration` | src/account/services/account.service.ts:83-104 | a registration with an affiliate's code records that affiliate as the referrer |
| `AccountEffects.UnreferredRegistration` | src/account/services/account.service.ts:83-104 | without a code, or with one that nobody has, there is no referrer |
| `AccountEffects.PlainCreation` | src/account/services/account.service.ts:154-285 | likewise for sellers and platform managers |
| `AccountEffects.VerificationRuns` | src/account/services/account.service.ts:287-346 | both stores and the reply after a whole verification, for an active affiliate, a good token and any other |
| `AccountEffects.ResetRuns` | src/account/services/account.service.ts:398-427 | a reset request leaves the user exactly one token, for 900 000 ms, and the tokens of others |
| `AccountEffects.ResendRuns` | src/account/services/account.service.ts:520-538 | a resend leaves the user exactly one token, for 86 400 000 ms, and the tokens of others |
| `AccountEffects.ConfirmationRuns` | src/account/services/account.service.ts:457-518 | the newest token of the address, not expired and with the right plaintext, sets the password; anything else changes nothing |
| `AccountEffects.AddressRuns` | src/user/services/user.service.ts:105-157 | both stores and the reply after a whole change of address, in every case |
| `AccountEffects.DeletionRuns` | src/user/services/user.service.ts:209-260 | a deletion with the right password removes the user's rows and its Keycloak user, and only references in the rows of others; a wrong one changes nothing |
| `AccountEffects.ErrorsChangeNothing` | src/account/services/account.service.ts:287-346 | whatever ran in between, a call that ends its request with an error changes nothing |
| `AccountEffects.DoneMeansDone` | src/account/services/account.service.ts:287-346 | whatever ran in between, a request that is answered with success has done what it is for |
| `AccountEffects.KeycloakUserIsGone` | src/user/services/user.service.ts:250-257 | the replies when another request has removed the Keycloak user |
| `AccountEffects.UserIsGone` | src/user/services/user.service.ts:243-257 | the replies when another request has removed the user |
| `AccountEffects.AddressIsTaken` | src/user/services/user.service.ts:146-154 | the reply when another user has taken the address in between |
| `AccountInvariants.CreateStepOk` | src/account/services/account.service.ts:76-115 | each call of the create flows keeps both stores consistent, with any other requests halfway |
| `AccountInvariants.VerifyStepOk` | src/account/services/account.service.ts:287-337 | so does each call of verifying |
| `AccountInvariants.TokenStepOk` | src/account/services/account.service.ts:398-576 | so does each call of the token flows |
| `AccountInvariants.DeleteStepOk` | src/user/services/user.service.ts:214-257 | so does each call of deleting |
| `AccountInvariants.AddressStepOk` | src/user/services/user.service.ts:105-157 | so does each call of changing an address |
| `AccountInvariants.DeleteUserKeepsPeople` | prisma/schema.prisma:140-162 | the cascade leaves no owner or referrer dangling and logs each deleted user once |
| `AccountInvariants.OthersStayOk` | src/account/services/account.service.ts:76-115 | no step spoils what another halfway request relies on |
| `AccountInvariants.AdvanceMoves` | src/account/services/account.service.ts:334-337 | users leave only into the audit log and an affiliate becomes active only in the last call of verifying its own user |
| `Runs.StepKeeps` | src/user/services/user.service.ts:209-260 | every step of the whole system keeps all invariants |
| `Runs.RequestsArePaths` | src/account/services/account.service.ts:55-152 | the runs include every request that nothing interrupts, ended or stopped after any call |
| `Runs.EventsAreSteps` | src/payment/services/payment_webhook.service.ts:30-59 | the runs include every payment event, waiting, and the loss of a request at any point |
| `AccountTheorems.IdentityContainment` | src/user/services/user.service.ts:243-257 | at every point of every run each local user exists in Keycloak, each one of its own |
| `Orphans.OrphanLeftIff` | src/account/services/account.service.ts:76-115 | a creation leaves its Keycloak user without a local one iff one of its later calls is not reached or the address is already taken |
| `Orphans.OrphanAtRowIff` | src/account/services/account.service.ts:91-115 | with other requests in between, the last call leaves it so iff the address has been taken or the referrer deleted by then |
| `Orphans.OneOrphan` | src/account/services/account.service.ts:256-278 | a failing input: a platform manager whose creation stops after the call to Keycloak |
| `Orphans.OrphanLeftByDeletionIff` | src/user/services/user.service.ts:214-257 | a deletion leaves its Keycloak user without a local one iff the password is right and it stops after the row write and before the last call |
| `Orphans.OneDeletedOrphan` | src/user/services/user.service.ts:243-257 | a failing input: a platform manager who is created and whose deletion stops before Keycloak |
| `Orphans.AbandonedForGood` | src/user/services/user.service.ts:243-257 | over every run, a Keycloak user that has no local user and is in no request's hands stays so |
| `Orphans.AbandonedIff` | src/account/services/account.service.ts:76-115 | over every run, a Keycloak user has no local user and is in no request's hands iff a creation or deletion that held it stopped or failed |
| `AccountTheorems.NothingDangles` | prisma/schema.prisma:203-261 | in every reachable state no reference to a user or affiliate dangles |
| `AccountTheorems.DeletionConserves` | src/user/services/user.service.ts:243-248 | users ever created are the live ones and the audited ones, none counted twice |
| `AccountTheorems.VerificationComesFirst` | src/account/services/account.service.ts:287-337 | an active affiliate has the verified flag in Keycloak, and a request for its user presented a matching, unexpired token of whoever then had the address the request was started with |
| `AccountTheorems.TokenIsOwnIff` | src/account/services/account.service.ts:302-305 | the presented token is the user's own iff the user still has the address its request was started with |
| `AccountTheorems.OwnTokenIfAddressKept` | src/account/services/account.service.ts:287-337 | when its user's address never changes, an active affiliate presented its own token |
| `AccountTheorems.AnotherUsersToken` | src/user/services/user.service.ts:105-157 | a failing run from any state with two such users, to its end: one leaves an address halfway through verifying, the other takes it, and its token makes the first one verified and active |
| `AccountTheorems.TwoUsersSwap` | src/account/services/account.service.ts:302-337 | a concrete state, reached by two registrations, in which it happens |
| `AccountTheorems.AffiliateWasThere` | prisma/schema.prisma:140-162 | ids are not reused: an affiliate known early and present late was there all the time |
| `AccountTheorems.ActiveOnlyGrows` | src/account/services/account.service.ts:334-337 | an active affiliate is active at every later point at which its row exists |
| `Tokens.AdvanceAlone` | src/account/services/account.service.ts:416-427 | each call keeps one token per user when nothing comes in between |
| `Tokens.BothLookupsAgree` | src/account/services/account.service.ts:460-464 | the lookups of verifying and of resetting choose the same token |
| `Tokens.OnlyNewestSurvives` | src/account/services/account.service.ts:520-538 | the token a user has is the newest ever issued to that user |
| `Tokens.OldTokensAreRejected` | src/account/services/account.service.ts:302-329 | after a reissue by any flow the plaintext of an older token opens nothing, unless the current token carries it again |
| `Tokens.ResendKeepsOneIff` | src/account/services/account.service.ts:520-538 | a resend keeps one token iff none was issued since its deletion |
| `Tokens.OverlappingResends` | src/account/services/account.service.ts:520-538 | two overlapping resends leave two tokens that both open |
| `Referrals.VerifiedAndUnverified` | src/user/services/user.service.ts:51-61 | verified and unverified referrals add up to all referrals |
| `Referrals.ReferralsAddUp` | src/account/services/account.service.ts:98-104 | referrals of all affiliates and unreferred affiliates add up to all affiliates |
| `Referrals.ReferralsAreAForest` | src/account/services/account.service.ts:83-104 | in every reachable state chains of referrals end and never return |
| `Referrals.ReferralTotals` | src/user/services/user.service.ts:44-61 | the totals add up in every reachable state |
| `Referrals.RegistrationCounts` | src/account/services/account.service.ts:83-104 | a registration with the code of an affiliate adds one unverified referral to that affiliate and to nobody else |
| `Referrals.VerificationCounts` | src/account/services/account.service.ts:334-337 | a verification turns one unverified referral of the user's referrer into a verified one, and changes no other count |
| `AccountBackend.RequestsKeepStores` | src/account/services/account.service.ts:287-346 | every request, wherever it fails, keeps both stores consistent and one token per user |
| `AccountBackend.Backend.CreateAffiliateUser` | src/account/services/account.service.ts:55-152 | the two stores and the reply are those of the create steps up to the failing call |
| `AccountBackend.Backend.CreateVerifiedUser` | src/account/services/account.service.ts:154-285 | likewise for sellers and platform managers |
| `AccountBackend.Backend.InsertAccount` | src/account/services/account.service.ts:91-115 | inserts user, affiliate and token iff the address is free and the referrer exists |
| `AccountBackend.Backend.VerifyAccount` | src/account/services/account.service.ts:287-346 | the two stores and the reply are those of the verify steps up to the failing call |
| `AccountBackend.Backend.SendResetPasswordToken` | src/account/services/account.service.ts:398-455 | likewise for the reset token |
| `AccountBackend.Backend.ConfirmPasswordReset` | src/account/services/account.service.ts:457-518 | likewise for the password reset |
| `AccountBackend.Backend.ResendAffiliateVerificationLink` | src/account/services/account.service.ts:520-576 | likewise for the resent link |
| `AccountBackend.Backend.DeleteUserAccount` | src/user/services/user.service.ts:209-260 | likewise for deleting an account |
| `AccountBackend.Backend.UpdateUserEmail` | src/user/user.controller.ts:60-79 | likewise for changing an address |
| `AccountBackend.Backend.UpdateAffiliateUserInfo` | src/user/services/user.service.ts:124-168 | the two stores and the reply are those of the address steps after the password check |
| `AccountBackend.Backend.Dispatch` | src/account/services/account.service.ts:287-346 | every request does what the model says up to the failing call, and keeps both stores consistent and one token per user |
| `AccountBackend.Backend.FindNewestToken` | src/account/services/account.service.ts:460-464 | finds the token with the largest id among those of the address, or none |
| `AccountBackend.Backend.FetchAffiliateReferredUsers` | src/user/services/user.service.ts:51-68 | the three counts are what they are called and add up |

## Left out

- HTTP, signatures, HMAC, JWT, bcrypt and random generation: only the success or failure of a call and the returned ids and statuses are modelled.
- Amounts, currencies, charge types, names, postal addresses and update timestamps: no modelled property depends on them.
- The two messages of a successful verification: both branches write the same rows.
- Webhooks without a reference code.
- Events of PaymentBackend.Backend overlapping inside one handler: see the assumptions.
- RunDueJob: exponential backoff is a later attempt at any time; other BullMQ internals are left out.
- OldTokensAreRejected: requests are atomic here, because two overlapping resends leave two tokens.
- GetErrors: the order of the keys in the resulting object is not modelled, and a throwing call says nothing of the accumulator. A root property named `__proto__`, which makes no entry, and names read from the empty array after a reset are outside the model.
- The terminate-subscription consumer: no module registers it.
- Changes of names and phone numbers, login, refresh, banks, stores, merchants, cookies, mail, pagination: straight-line code.
- Roles, seller rows, stores and products of a deleted user: they only follow the cascade.
