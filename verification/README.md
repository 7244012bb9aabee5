# Payment ledger platform: a Dafny model

A model of the money-moving core of the payment ledger platform and proofs about it: a double-entry
ledger kept beside payment, payout and dispute tables, an outbox, an idempotency-key map and a
webhook-dedup set, and the services that drive them. `dafny verify dfyconfig.toml` checks the project.

A service call reads a record without a lock and later hands the store one atomic command built from
what it read. `Machine.dfy` runs any number of such calls at once, each holding a snapshot that may be
stale, interleaved with creations, payout requests, webhook registrations and outbox marks. The main
theorem is that over every such run the ledger folds and the tables agree on every account, merchant
and currency. `Postgres.dfy` splits the operations that are not atomic in PostgreSQL into their steps
and proves the same there, for every lock hash.

Files, from the ground up:

- `Domain`, `Accounts`, `Sums`, `Stepwise`: records and their checks; account names and ledger folds; sums over tables; exact conditions over runs.
- `StoreSpec`, `MemoryStore`: what each store operation does, as functions, and the class proved against them.
- `ServiceSpec`, `Services`, `Acceptance`: what the services build; the service classes; exactly which calls succeed.
- `Machine`, `Postings`, `Steps`, `ClaimSteps`, `Runs`: the machine, its invariant, and its proof step by step.
- `Bounds`, `Theorems`, `Snapshots`, `Disputes`: what holds over every run, what event snapshots are worth, how disputes add up.
- `Postgres`, `Interleavings`, `PgSnapshots`: lock, read and commit as separate steps; exact conditions over their runs; event snapshots there.
- `Rounding`, `RoundedRuns`, `RoundedPayouts`, `RoundedEvents`, `ExactRuns`: columns of six decimals, the same machine on them, what rounding does to balances and events, and when it changes nothing.
- `Witnesses`, `ProtocolWitnesses`, `RoundedWitnesses`: runs of each machine that show what can be reached, with the amounts their requests carry.
- `Publishing`, `Leases`, `Delivery`: when an event is published; claiming under a lease with many workers; one delivery round and draining a backlog.
- `RateLimiter`, `Webhooks`, `Callbacks`, `Handlers`, `Reconciliation`: the sliding window, callback dedup, what each callback does, overlapping handlers, settlement reports.

Amounts are reals: decimals add, subtract and compare exactly, and every decimal is a real. UUIDs are
inputs that must not have been used before. Answers of the provider and the risk engine, clock readings
and publisher results are inputs too.

Results that run against what one might expect, each with a run or an input that fails and the exact condition:

- The repository's README says the advisory lock prevents "concurrent payout requests from overspending the
  available ledger balance". It does: no other payout of the merchant in the currency commits while one
  holds its lock, and reserved and paid payouts never exceed captures (`PostgresPayoutsCovered`). What
  the lock does not keep out are refunds and disputes between the balance read and the commit, after
  which a payout can leave the balance negative (`PayoutOverdraws`); `PayoutLeavesBalanceIff` says
  exactly when.
- The unlocked `Transition` of the PostgreSQL store can fail a payment whose money was captured meanwhile
  (`FailedWithCapturedMoney`); `StatusesOkIff` gives the exact condition. The ledger still agrees.
- Overlapping captures commit correctly but the later event understates the captured total
  (`EventMayUnderstateRow`); `EventIsRowIff`, and `PgEventIsRowIff` for PostgreSQL, say exactly which
  overlapping calls do that.
- An amount with more than six decimals makes events and answers differ from the stored row, and an event
  may announce less than its pair moves (`EventMayUnderstatePair`, `PayoutEventMayMisstateRow`);
  `EventsAnnounceIff`, `ClaimEventIsRowIff` and `RoundedEventIsRowIff` say exactly when. The ledger and the
  tables still agree.
- `ValidateBalanced` ignores currency, so a raw append can break a currency (`RawAppendBreaksCurrencies`);
  `CurrenciesConservedIff` says exactly which histories do not.
- One payment can be disputed in full more than once (`DisputesMayOverlap`); `DisputesFitIff` says exactly
  when its disputes stay within what it captured.
- A provider reference need not be unique (`ReferenceMayBeAmbiguous`). Reconciliation is determined exactly
  when no reported reference belongs to rows with different captured amounts (`DeterminedIff`).

## Model

| member | source | states |
|---|---|---|
| Domain.ValidateBalanced | internal/domain/payment.go:73-89 | the loop accepts exactly the transactions of at least two one-sided entries with equal debits and credits, and names the first failing rule otherwise |
| Domain.BalancedMeans | internal/domain/payment.go:73-89 | in an accepted batch every entry has exactly one positive side and both sides occur |
| Domain.ToUpperIdempotent | internal/domain/payment.go:140-145 | upper-casing twice is upper-casing once, so a dispute record and its ledger entries share one currency |
| Domain.ToUpperMeans | internal/domain/payment.go:140-145 | upper-casing turns each small letter into its capital and leaves everything else alone |
| Accounts.NameRoundTrip | internal/service/payment_service.go:69-99 | an account can be read back from its name whatever the merchant id holds |
| Accounts.NameInjective | internal/service/dispute.go:28-42 | account names are injective and the shared ones never meet the per-merchant ones |
| Accounts.PairBalance | internal/service/payout.go:20-38 | a debit/credit pair moves its amount between its two accounts and changes no other account or currency |
| MemoryStores.MemoryStore.CreatePayment | internal/store/store.go:49-58 | a known key replays the first payment and changes nothing, an unknown key stores payment and key |
| MemoryStores.MemoryStore.Transition | internal/store/store.go:78-91 | status and reference change only along an allowed transition |
| MemoryStores.MemoryStore.CommitPaymentCommand | internal/store/store.go:172-207 | row, ledger entries and event are written together against the current row, or nothing is |
| MemoryStores.MemoryStore.AvailableBalance | internal/store/store.go:208-218 | the loop computes the ledger fold of the merchant's available account in one currency |
| MemoryStores.MemoryStore.CreatePayout | internal/store/store.go:219-238 | refused below the available balance, else payout, entries and event are written together |
| MemoryStores.MemoryStore.TransitionPayout | internal/store/store.go:248-270 | only a pending payout is resolved, with its entries and event |
| MemoryStores.MemoryStore.CreateDispute | internal/store/store.go:271-284 | a new dispute is written with its entries and event |
| MemoryStores.MemoryStore.ResolveDispute | internal/store/store.go:294-315 | only an open dispute is resolved, with its entries and event |
| MemoryStores.MemoryStore.ClaimOutbox | internal/store/store.go:138-151 | the claimed events are distinct and unpublished, and fall short of all unpublished ones only by reaching the batch size |
| MemoryStores.MemoryStore.GetPaymentByProviderReference | internal/store/store.go:68-77 | returns some row with the reference, or not found when there is none |
| StoreSpec.GrandTotalConserved | internal/store/store.go:123-131 | over any sequence of store operations with any arguments, total debits equal total credits |
| StoreSpec.RawAppendBreaksCurrencies | internal/domain/payment.go:73-89 | a raw append of balanced entries can unbalance a single currency |
| StoreSpec.CurrenciesConservedIff | internal/store/store.go:123-131 | over any history each currency is conserved at every point exactly when every accepted batch is balanced in each currency |
| StoreSpec.PairPerCurrencyIff | internal/domain/payment.go:73-89 | a balanced pair is balanced in each currency exactly when both entries share one |
| Services.PaymentService.Create | internal/service/payment_service.go:31-47 | no key or bad input changes nothing; otherwise the answer is the store's create or replay |
| Services.PaymentService.Authorize | internal/service/payment_service.go:48-71 | blocked or refused payments are only failed; else the authorization command built from the row is committed |
| Services.PaymentService.Capture | internal/service/payment_service.go:73-86 | checks the row it read, asks the provider, then commits the capture command built from that row |
| Services.PaymentService.Refund | internal/service/payment_service.go:88-101 | checks the row it read, asks the provider, then commits the refund command built from that row |
| Services.PaymentService.Commit | internal/service/payment_service.go:103-118 | the event carries the snapshot moved by the command |
| Services.PayoutService.Create | internal/service/payout.go:14-22 | reserves from available to payout-pending with a created event |
| Services.PayoutService.Complete | internal/service/payout.go:23-44 | settles or reverses the payout it read |
| Services.DisputeService.Open | internal/service/dispute.go:15-30 | freezes at most what the payment it read has settled |
| Services.DisputeService.Resolve | internal/service/dispute.go:31-47 | releases to the merchant or charges back the dispute it read |
| Acceptance.CreateSucceedsIff | internal/service/payment_service.go:31-47 | refused exactly without key, for blank merchant or customer, a currency not of three characters or an amount not positive; else stored as requested unless the key is in use |
| Acceptance.AuthorizeSucceedsIff | internal/service/payment_service.go:48-71 | succeeds exactly on a created payment that risk and provider let through; the row, entries, event and answer it then writes |
| Acceptance.AuthorizeFailsExactly | internal/service/payment_service.go:53-67 | a block or provider refusal fails a created or authorized payment with that very reason and changes nothing else; every other refusal changes nothing; which error is answered |
| Acceptance.FailedRefusesEverything | internal/domain/payment.go:51-58 | a failed payment refuses every later authorization, capture and refund |
| Theorems.FailedIsFinal | internal/domain/payment.go:51-58 | over every run a failed payment's row never changes again and nothing more is posted about it, whatever is still in flight |
| Acceptance.CaptureSucceedsIff | internal/service/payment_service.go:73-86 | succeeds exactly on authorized or captured payments within the remaining amount; the row, entries, event and answer it then writes |
| Acceptance.RefundSucceedsIff | internal/service/payment_service.go:88-101 | succeeds exactly on captured or refunded payments within what is left to refund; the row, entries, event and answer it then writes |
| Acceptance.CaptureOrRefundFailsExactly | internal/service/payment_service.go:73-101 | a refused capture or refund changes nothing and answers with the first of four reasons |
| Acceptance.PayoutSucceedsIff | internal/service/payout.go:14-22 | succeeds exactly for a positive amount within the available balance; the payout, entries, event and answer it then writes, and the error otherwise |
| Acceptance.CompleteSucceedsIff | internal/service/payout.go:23-44 | succeeds exactly on a pending payout; the payout, entries, event and answer it then writes, and the error otherwise |
| Acceptance.OpenSucceedsIff | internal/service/dispute.go:15-30 | succeeds exactly within captured minus refunded; the dispute, entries, event and answer it then writes, and the error otherwise |
| Acceptance.ResolveSucceedsIff | internal/service/dispute.go:31-47 | succeeds exactly on an open dispute; the dispute, entries, event and answer it then writes, and the error otherwise |
| Witnesses.DisputesMayOverlap | internal/service/dispute.go:20-22 | for every amount a run disputes a payment in full twice and drives the available balance below zero |
| Disputes.DisputesFitIff | internal/service/dispute.go:15-30 | over every run the open and lost disputes of a payment stay within its captured amount exactly when each opening fits beside those already open or lost |
| Runs.StepKeepsInv | internal/store/store.go:172-315 | every step of every in-flight call keeps the whole invariant, whatever stale snapshot it was built from |
| Runs.RunInv | internal/store/store.go:172-315 | the invariant holds at every point of every run |
| Theorems.LedgerAgreesWithRecords | internal/store/store.go:172-315 | in every run every account balance folded from the ledger equals the sum of the records' shares, per currency |
| Theorems.EntriesAgreeWithTheirRecord | internal/store/store.go:172-315 | the entries written for one payment, payout or dispute add up to that record's own share of every account |
| Theorems.CancelledLifecycles | internal/service/payout.go:23-44 | a failed payout and a won dispute contribute zero to every account whatever ran in between |
| Theorems.AuthorizedIsHistory | internal/domain/payment.go:51-53 | the history used for the pending accounts is exactly the payments once seen authorized |
| Theorems.RunEvolves | internal/store/store.go:172-315 | identity fields never change, captured and refunded only grow, resolved records never change, keys, entries and events are never lost |
| Theorems.ResolvedOnce | internal/store/store.go:255-260 | a resolved payout or dispute keeps its row for ever with exactly one opening and one resolution posted |
| Theorems.DisputeWithinCaptured | internal/service/dispute.go:20-22 | a dispute never exceeds what its payment has captured, at any later point |
| Theorems.PaymentsStayValid | internal/domain/payment.go:51-66 | refunded, captured and amount stay ordered, status matches them both ways, and at most one authorization is ever posted |
| Theorems.BalanceBounds | internal/store/store.go:219-238 | payouts never exceed captures, available is bounded below by refunds and disputes, all other accounts but customer pending are never negative |
| Theorems.GrantedPayoutLeavesBalance | internal/store/store.go:228-237 | a granted payout leaves available at zero or more |
| Theorems.CurrencyConserved | internal/service/payment_service.go:69-99 | debits equal credits in every currency in every service-driven run |
| Theorems.LedgerMirrorsOutbox | internal/store/store.go:201-205 | the ledger is balanced pairs in one-to-one correspondence with events that name their accounts and currency and their amount, which capture and refund events only bound |
| Theorems.ClaimEventsShowCurrentRows | internal/service/payout.go:40-43 | the newest payout or dispute event equals the current row even when calls interleave |
| Theorems.StepPostsIffItSucceeds | internal/store/store.go:172-315 | a step posts exactly one pair and one unpublished event when the store accepts its command, else changes at most the one payment it creates or fails |
| Theorems.CallWritesIffItSucceeds | internal/service/payment_service.go:48-71 | a call that succeeds writes exactly one balanced pair and one event, unpublished, under the drawn ids; one that fails writes nothing, except that an authorization may fail its own payment |
| Publishing.PublishedIffMarked | internal/store/store.go:152-162 | over every run an event is published exactly when it has been marked: events are born unpublished and nothing else publishes them |
| Publishing.PgPublishedIffMarked | internal/store/postgres.go:165-168 | the same over every PostgreSQL run |
| Publishing.RoundPublishedIffMarked | internal/store/postgres.go:165-168 | the same over every run on rounding columns |
| Theorems.CreationAddsOnePayment | internal/service/payment_service.go:31-47 | a creation touches no ledger entry and no event and adds at most one payment, under an unused key |
| Theorems.MerchantsIsolated | internal/service/payment_service.go:69-99 | a merchant's balance in a currency changes only by an event about that merchant in that currency |
| Theorems.CreateIsIdempotent | internal/store/store.go:49-58 | keys and payments correspond one to one, and every reuse of a key answers with the current row of the first payment |
| Snapshots.ServiceCallIsSteps | internal/service/payment_service.go:48-101 | every service call, however it ends, is its read and one more step of the machine, or nothing, and leaves the same store |
| Snapshots.LatestPaymentEventIsRow | internal/service/payment_service.go:103-118 | if the calls on one payment never overlap each other, its newest event shows its row from authorization on, unless it fails |
| Snapshots.EventIsRowIff | internal/service/payment_service.go:103-118 | over every run the event of a committed payment call shows the written row exactly when no capture, refund or referenced authorization of that payment committed since its read |
| Snapshots.OverlappingCapturesMisstate | internal/service/payment_service.go:103-118 | two overlapping captures both commit and the second event is short by the first amount |
| Witnesses.EventMayUnderstateRow | internal/service/payment_service.go:73-86 | for every amount a run with two overlapping captures of half of it, one committed: when the other commits the row holds all of it and the event of that commit announces half |
| Postgres.PostgresPayoutsCovered | internal/store/postgres.go:233-269 | for every interleaving and lock hash payouts never exceed captures, the ledger agrees with the tables, available is bounded below |
| Postgres.CommitPayoutCovered | internal/store/postgres.go:239-268 | the stale balance a payout commits on is still covered by captures |
| Postgres.EndedTransactionFreesLock | internal/store/postgres.go:233-269 | a payout transaction that commits or rolls back gives its lock back |
| Postgres.LockKeysIff | internal/store/postgres.go:240-242 | two payout transactions lock one key exactly when they are about the same merchant and currency, whatever the merchant id holds |
| Postgres.PostgresKeysUnique | internal/store/postgres.go:17-43 | select-then-insert keeps one payment per key and no payment without one |
| Interleavings.PayoutLeavesBalanceIff | internal/store/postgres.go:239-265 | over every run and hash a payout commit leaves available non-negative exactly when the net drain since its balance read is at most what that balance had to spare |
| ProtocolWitnesses.PayoutOverdraws | internal/store/postgres.go:239-265 | for every amount and hash a run in which a payout transaction has read a balance that covers it, may still commit, and by committing leaves minus its amount |
| Interleavings.PostgresReplays | internal/store/postgres.go:24-27 | once a key is taken every later select finds the payment it was first used for, with the same merchant, customer, currency and amount |
| Interleavings.InsertsOnlyUnusedKeys | internal/store/postgres.go:24-34 | a creation reaches its inserts only if its select found the key unused |
| ProtocolWitnesses.MemoryRunsAreProtocolRuns | internal/store/postgres.go:17-43 | whatever the in-memory store reaches, the PostgreSQL protocol reaches too, for every hash and with the same amounts |
| Interleavings.PgRunEvolves | internal/store/postgres.go:170-269 | in PostgreSQL runs records change only forwards and keys, entries and events are never lost |
| Interleavings.PostgresRowsStayValid | internal/store/postgres.go:170-231 | in PostgreSQL runs refunded, captured and amount stay ordered and at most one authorization is posted |
| Interleavings.PostgresAccountsNonNegative | internal/store/postgres.go:233-269 | in PostgreSQL runs every account but available and customer pending is never negative |
| Interleavings.PostgresLedgerMirrorsOutbox | internal/store/postgres.go:207-217 | in PostgreSQL runs pairs and events correspond one to one, every currency is conserved, and newest payout and dispute events show their rows |
| Interleavings.PostgresResolvedOnce | internal/store/postgres.go:278-314 | in PostgreSQL runs a resolved payout or dispute keeps its row with one opening and one resolution posted |
| Interleavings.PostgresDisputeWithinCaptured | internal/service/dispute.go:20-22 | in PostgreSQL runs a dispute never exceeds what its payment has captured |
| PgSnapshots.PgEventIsRowIff | internal/store/postgres.go:170-231 | over every PostgreSQL run the event of a committed payment call shows the written row exactly when no capture, refund or referenced authorization of that payment committed since its read |
| Interleavings.StatusesOkIff | internal/store/postgres.go:106-123 | over every run all statuses agree with the amounts at every point exactly when no update to failed lands on a captured or refunded row |
| Interleavings.SettledFailureHasCause | internal/store/postgres.go:106-123 | an update to failed lands on a settled payment only if its read saw the payment created or authorized and a capture committed in between |
| ProtocolWitnesses.FailedWithCapturedMoney | internal/store/postgres.go:106-123 | for every amount and hash a run from the empty store that ends with a failed payment holding captured money |
| Rounding.StoredShift | migrations/002_partial_payments.sql:1-3 | rounding the running total equals adding the rounded amount |
| Rounding.StoredIsNearest | migrations/001_payment_ledger.sql:18-27 | the column holds the nearest millionth, of two equally near ones the one farther from zero |
| Rounding.FitsIff | migrations/001_payment_ledger.sql:18-27 | the column takes exactly what rounds to fewer than fifteen digits before the point |
| Rounding.CommitsIffNotRoundedAway | migrations/001_payment_ledger.sql:18-27 | an acceptable capture or refund commits exactly when its amount does not round to zero, else nothing is written |
| RoundedRuns.StoredCommitsIff | migrations/001_payment_ledger.sql:18-27 | on stored tables a command of any of the six kinds commits exactly when the exact store accepts it and its amount does not round to zero |
| RoundedRuns.CommitRefines | internal/store/postgres.go:191-218 | every committed authorize, capture, refund, payout completion, dispute opening and resolution writes what the exact store writes for the rounded amount, up to the amounts in its event |
| RoundedRuns.StepFollows | internal/store/postgres.go:233-269 | every step on rounding columns is a step of the exact machine on rounded amounts, or none |
| RoundedRuns.RoundedRunsRefine | migrations/001_payment_ledger.sql:18-27 | at every point of every run on rounding columns the tables hold exact column values and the rounded configuration is one the exact machine reaches |
| RoundedRuns.RoundedBooksAgree | migrations/002_partial_payments.sql:1-3 | in every run on rounding columns every account equals its record sum, payouts stay within captures, available keeps its bound, rows keep theirs, keys stay unique |
| RoundedPayouts.RoundedPayoutLeavesBalanceIff | internal/store/postgres.go:239-265 | on rounding columns a payout commit leaves available non-negative exactly when the net rounded drain since its read is at most the read balance less its rounded amount |
| RoundedPayouts.RoundedStatusesOkIff | internal/store/postgres.go:106-123 | on rounding columns too, statuses agree with amounts exactly when no update to failed lands on a captured or refunded row |
| RoundedEvents.EventsAnnounceIff | internal/service/payment_service.go:103-118 | in every run on rounding columns every event names its pair, with the amount or for captures and refunds a bound on it, exactly when committed payouts and disputes have six decimals and no first capture or refund is rounded up |
| RoundedEvents.ClaimEventIsRowIff | internal/service/payout.go:14-22 | the newest event of a payout or dispute shows its stored row exactly when the requested amount has six decimals or it is resolved |
| PgSnapshots.RoundedEventIsRowIff | internal/store/postgres.go:206-225 | over every run on rounding columns the event of a committed capture or refund shows the stored row exactly when its amount has six decimals and no capture, refund or referenced authorization of that payment committed since its read; the answer exactly when the amount has six decimals |
| PgSnapshots.AuthorizedEventIsRow | internal/service/payment_service.go:48-71 | on rounding columns the event of a committed authorization always shows the stored row |
| RoundedWitnesses.EventMayUnderstatePair | migrations/001_payment_ledger.sql:18-27 | a run that is about to capture 0.0000006 of 5: row and pair then hold 0.000001, event and answer 0.0000006 |
| RoundedWitnesses.PayoutEventMayMisstateRow | internal/store/postgres.go:254-262 | a run with a payout stored as 0.000001 whose newest event shows it as 0.0000006 |
| RoundedWitnesses.RoundedPayoutOverdraws | internal/store/postgres.go:239-265 | the overdrawing payout is reachable on rounding columns for every amount they hold |
| RoundedWitnesses.RoundedFailedWithCapturedMoney | internal/store/postgres.go:106-123 | the failed payment with captured money is reachable on rounding columns for every amount they hold |
| ExactRuns.ExactRunsRound | migrations/001_payment_ledger.sql:18-27 | a run of the exact machine whose requests carry only amounts the columns hold is a run on rounding columns |
| Leases.ClaimsAreSpaced | internal/store/postgres.go:144-164 | two claims of one event are more than a minute apart |
| Leases.PublishedOnceAccepted | internal/service/outbox.go:39-53 | a marked event was accepted by the publisher and is never claimed again |
| Leases.MarkPublishesItsEvent | internal/store/postgres.go:165-168 | a mark publishes the event of the claim its worker is at and touches no other row |
| Leases.PublishedIffMarked | internal/store/postgres.go:165-168 | over every run an event is published exactly when one of its claims has been marked |
| Leases.MarkedForEver | internal/store/postgres.go:147-150 | a marked event is published at every later point and never claimed again |
| Leases.EventCanBePublished | internal/service/outbox.go:39-53 | a run that writes, claims, accepts and marks an event |
| Leases.DeliveredInOrder | internal/service/outbox.go:44-51 | of what one claim returned the publisher accepted exactly the first few, and all of these but perhaps the last are published |
| Leases.RowKeepsBirth | internal/store/postgres.go:147-151 | a row keeps the time at which its event was written, by which claims are ordered |
| Leases.DuplicatesNeedExpiredLease | internal/service/outbox.go:44-51 | two acceptances of one event come from claims more than a minute apart |
| Leases.ExpiredIsTaken | internal/store/postgres.go:144-151 | an unpublished event whose lease has run out is taken by every claim whose limit exceeds the claimable events as old or older, and an idle worker can always claim |
| Leases.ClaimWithinLimit | internal/store/postgres.go:144-151 | a claim never takes more than its limit |
| Delivery.OutboxWorker.Deliver | internal/service/outbox.go:39-53 | exactly the events before the first publishing failure are marked |
| Delivery.StoreKeysEventsById | internal/store/store.go:201-205 | whatever operations the store performs, events sit under their own ids, as a delivery round needs |
| Delivery.OutboxWorker.Poll | cmd/worker/main.go:37-42 | each round of the polling loop with a publisher that never fails leaves a batch fewer unpublished, or none |
| Delivery.RoundPublishes | internal/store/store.go:138-162 | a round without failures publishes the batch size or all there is |
| Delivery.BacklogNeedsExactlyThisMany | internal/service/outbox.go:39-53 | a backlog is empty after its size divided by the batch size, rounded up, rounds and not before |
| RateLimiter.MemoryRateLimiter.Compact | internal/httpapi/security.go:60-65 | compacting through the aliased slice equals filtering the old log |
| RateLimiter.MemoryRateLimiter.Allow | internal/httpapi/security.go:56-72 | decides and rewrites one key's log and leaves the logs of all other keys alone |
| RateLimiter.GrantedIff | internal/httpapi/security.go:66-71 | with a non-decreasing clock a request is granted exactly when fewer than the limit of granted ones lie in the window ending with it |
| RateLimiter.AtMostLimitPerWindow | internal/httpapi/security.go:56-72 | at every instant at most the limit of granted requests lie in the window ending there |
| Webhooks.Server.Webhook | internal/httpapi/webhook.go:79-124 | checks, registers once, then captures or refunds |
| Webhooks.Server.PayoutWebhook | internal/httpapi/webhook.go:42-77 | checks, registers once, then completes the payout |
| Callbacks.TurnedAway | internal/httpapi/webhook.go:79-112 | which callbacks are turned away, with which answer, and that they change nothing |
| Callbacks.CaptureCallback | internal/httpapi/webhook.go:113-123 | a new capture callback is accepted exactly when the row allows the capture, and then captured grows by its amount |
| Callbacks.RefundCallback | internal/httpapi/webhook.go:113-123 | a new refund callback is accepted exactly when the row allows the refund, and then refunded grows by its amount |
| Callbacks.PayoutCallback | internal/httpapi/webhook.go:61-76 | a new payout callback is accepted exactly when the payout is pending, and then pays or fails it as it says |
| Webhooks.DuplicatesChangeNothing | internal/httpapi/webhook.go:103-118 | any sequence of callbacks leaves the store as the first valid delivery of each id alone would |
| Webhooks.EachIdMovesMoneyOnce | internal/httpapi/webhook.go:61-70 | the ledger grows by at most one pair per distinct new valid id |
| Handlers.OneMovePerId | internal/httpapi/webhook.go:79-124 | however callbacks repeat and handlers overlap, the postings made by handlers belong to different event ids and to the records their callbacks name |
| Handlers.HandlerAlone | internal/httpapi/webhook.go:79-124 | a handler whose steps are not interleaved leaves the very store that the sequential handler leaves |
| Reconciliation.Reconcile | internal/service/reconciliation.go:22-39 | the result is sorted by reference and reports the lines against rows the lookup may return |
| Reconciliation.AtMostIff | internal/service/reconciliation.go:38 | the order of the result is that of strings: a prefix first, else the first difference decides |
| Reconciliation.DeterminedIff | internal/service/reconciliation.go:24-36 | the mismatches are determined exactly when no named reference has rows with different captured amounts |
| Witnesses.ReferenceMayBeAmbiguous | internal/store/store.go:68-77 | for every amount a run in which two payments with different captured amounts share a provider reference |
| Reconciliation.ReconciliationIsExact | internal/service/reconciliation.go:22-39 | whenever no line names an ambiguous reference: every mismatch as often as lines call for it, with what the row captured expected and what the line says reported, nothing else, empty exactly when all agree, independent of line order |

## Left out

- HTTP routing, JSON decoding, tracing, status codes and metrics: plumbing and counters.
- HMAC signatures and API keys: given as a boolean on each callback.
- NATS, Redis, merchant HTTP delivery, dead letters and the composite publisher: the publisher is one accept-or-fail oracle.
- `ApplyAmount` and raw `Enqueue`: no service calls them; `AppendLedger` appears only in raw store histories.
- The JSON text of event payloads: an event carries the record itself.
- Serialisation of time and driver errors in PostgreSQL: a transaction either commits its effect or rolls back.
- Currency codes outside ASCII: lengths count characters and upper-casing maps a to z only.
- Uniqueness of ledger entry identifiers across calls: each call writes the two it draws, and no code reads them.
- The sorting algorithm behind `sort.Slice`: an insertion sort stands in for it, and nothing is claimed about the order of equal references.
- The order in which a PostgreSQL claim returns its rows: it takes the oldest ones, and `RETURNING` promises no order.
- The column list of the replay query in the PostgreSQL `CreatePayment`: what is claimed is the identity of the payment it finds; reading a missing provider reference can still make the replay answer with an error.
- Foreign keys and the types of the columns that hold no amount: rows are never deleted and the services only insert values that fit.
