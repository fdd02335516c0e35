# HeroMail: a verified model of allocation, money and delivery

HeroMail leases mailboxes to paid orders. A user orders a registration on a target platform, the price is taken from
the balance at once, a healthy verified mailbox is leased, and the (mailbox, platform) slot is marked. A code that
arrives consumes the slot; a cancellation, a 30 minute timeout or a failed verification gives the money back and
releases the mailbox. This project models that core in Dafny and proves what holds of money, leases, slots, queues and
credentials over every run, and exactly when the code loses it. `dafny verify dfyconfig.toml` checks all of it.

The files follow the parts of the system:

- `Domain`, `Text`, `Totals`, `OrderIds`, `Money`: entities, string helpers, sums over maps, order identifiers, cents.
- `StoreModel`, `StoreInvariant`, `StoreRuns`, `StoreSweeps`, `StoreStock`, `StoreSeed`: the in-memory store as a
  value; its invariant; every operation as a step and what holds over every run; the two sweeps; stock; seeding.
- `StoreLaws`, `RowLaws`: what every operation of the two stores decides and does, field by field and in plain values,
  apart from the functions that model it: what may be leased, what it costs, what a sweep ends, what a verification
  leaves behind.
- `MemoryStore`: the store as it is written, a class with maps of pointers to records that its methods update in place,
  each proved against the functions of `StoreModel`. Loops over Go maps take their keys in an arbitrary order.
- `Rows`, `RowLocks`, `RowInvariant`, `RowRuns`: the PostgreSQL store at the granularity of its statements. A transaction
  is a program over its own row copies; other transactions run between any two statements and any transaction may
  be aborted at any point. Row locks make every commit equal to the whole operation run alone at that moment; the
  rest is proved on those operations.
- `AllocationLock`: the expiring Redis lock around order creation. `RowRuns` does not need it.
- `JobQueue`, `KeysetScan`, `BulkDelete`, `Webhooks`: the de-duplicating queue and its workers, paging loops, batched
  deletion, webhook attempts.
- `Credentials`, `CodeDelivery`: what happens to a stored credential, and how mail becomes a delivered code. Mail servers,
  token endpoints, regular expressions and the database's failures are arbitrary. `Account.acts` lists every question,
  refresh and write with its answer; what Verify, ReadMessages and a poll report is stated in terms of it.

Money is in integer cents (in `Money` decimals are doubles, seen as reals that every operation rounds), time is in
seconds with 0 as the zero time (milliseconds in `AllocationLock`), and the clock is an argument. In `StoreRuns` it may
even run backwards.

Where code and documentation differ the model follows the code. The documentation promises that a consumed pair is never
allocated again. The in-memory store keeps that (`StoreRuns.ConsumedForGood`). The PostgreSQL store can lose it, because
creating an order reads the slot without a lock and later writes it unconditionally: `RowRuns.ConsumedLostExactly` says
exactly when, `RowRuns.ConsumedSlotRevived` shows it.

The other places where the code does less than its name says, each with the exact condition:

- An administrator's save reads a mailbox row without a lock and later writes all of it back, so it can undo a lease
  given in between, and the mailbox is then leased twice: `RowRuns.LeaseGivenTwice`. `RowRuns.SaveLosesExactly` says in
  terms of the row read, the row stored and the request which saves do this, in every run; `RowRuns.FirstLossExactly`
  is the simpler condition for runs without one before, and `RowRuns.AskingForNothingLoses` shows that it is not enough
  after one. Money and ledger stay right even then: `LedgerReplays`, `OrderChargedOnce`, `OrderSettlesOnce` and
  `PaymentCreditedOnce` hold in every run.
- A poll does not reach every active mailbox when a stored credential no longer decrypts (`KeysetScan.PollCoversExactly`,
  `KeysetScan.OneBadRowHidesTheRest`).
- A manual webhook retry puts a second worker on a delivery if and only if it comes while one is on it
  (`Webhooks.SharedAfterRetryExactly`, `Webhooks.RetryAdmitsASecondWorker`).
- The allocation lock expires under a slow client (`AllocationLock.ExpiryAdmitsASecondHolder`).

## Model

| member | source | states |
|---|---|---|
| `StoreRuns.LeaseBijection` | internal/store/store.go:211-270 | in every reachable state an order is active exactly if its mailbox carries its id, is leased, and the (mailbox, platform) slot is leased; no two active orders share a mailbox; every lease mark on a mailbox or slot belongs to such an order |
| `StoreRuns.MoneyConserved` | internal/store/store.go:705-721 | between any two points of any run a user's balance plus the prices of their orders not given back is the same, and no balance is negative |
| `StoreRuns.OrderForGood` | internal/store/store.go:381-478 | an order keeps its owner, mailbox, platform, price, request and dates; it is refunded exactly if canceled or expired, for good; once it has a code it keeps that code and is never refunded |
| `StoreRuns.PairLimit` | internal/store/repository.go:130-136 | for each mailbox and platform the timeout counter is the number of orders that timed out there, and timeouts plus delivered codes never exceed five, even after the mailbox is deleted |
| `StoreRuns.ConsumedForGood` | internal/store/store.go:399-408 | a consumed pair stays consumed while the mailbox exists, and no order is ever created on it again |
| `StoreRuns.RequestsAtMostOnce` | internal/store/store.go:229-235 | per user and non-empty request id there is at most one order in every reachable state |
| `StoreRuns.RequestRepeated` | internal/store/store.go:229-235 | asking again with a used request id changes nothing and, if the request itself is valid, returns exactly that order |
| `StoreRuns.NewOrderOverwritesNone` | internal/store/store.go:260-268 | a created order takes an identifier no order ever had, so the map insertion overwrites nothing |
| `OrderIds.OrderIdInjective` | internal/store/store.go:261-262 | `ORD%06d` renders distinct sequence numbers to distinct, non-empty identifiers, also beyond six digits |
| `OrderIds.PaddedReadsBack` | internal/store/store.go:262 | reading the padded numeral back gives the number, whatever the width |
| `OrderIds.OrderIdShape` | internal/store/store.go:262 | an identifier is ORD followed by the numeral, padded with zeros to six digits |
| `StoreRuns.StepKeeps` | internal/store/store.go:211-721 | every operation, with any arguments at any time, keeps the invariant, and orders, slots and money change only in the allowed direction |
| `StoreRuns.SaveMailboxExactly` | internal/store/postgres_resources.go:80-107 | applied in one step, an administrator's edit of an existing mailbox keeps leases and orders in correspondence if and only if it does not ask for the state leased on a mailbox without an order |
| `StoreInvariant.EndKeepsInv` | internal/store/store.go:705-721 | every way a lease ends (code, cancellation, timeout, failed verification) keeps leases, money, request ids and pair counts in order |
| `StoreInvariant.LeaseKeepsInv` | internal/store/store.go:240-268 | leasing an eligible mailbox to a new order keeps all of that, because the checked maximum covers the price of whichever provider is chosen |
| `StoreLaws.CreateAnswersExactly` | internal/store/store.go:211-258 | every answer of CreateOrder with the exact circumstances, field by field: unknown user or platform, disabled, a provider that is unknown, not allowed or not priced, a used request id, a balance below some requested provider's price, and no mailbox exactly if none of a requested provider is verified, available, without an order, of health 60 or more, on IMAP or with a token that is still valid, with an available slot; a refusal changes nothing |
| `StoreLaws.CreatedTakes` | internal/store/store.go:240-256 | the mailbox of a created order meets that list, and none that does is healthier |
| `StoreLaws.CreatedIs` | internal/store/store.go:258-270 | the order is new, waits until 1800 seconds from now and costs the price of its mailbox's provider, which leaves the balance; mailbox and slot are leased to it; nothing else changes |
| `StoreLaws.FirstOccurrences` | internal/store/store.go:289-305 | the list without repetitions keeps each entry once, in the order of its first occurrences |
| `StoreLaws.StockIs` | internal/store/store.go:190-207 | a mailbox counts exactly if it meets that list and the platform is enabled and allows its provider |
| `StoreLaws.CancelIs` | internal/store/store.go:426-439 | exactly the owner, or a caller who names nobody, cancels, and only an order that waits; the price is back, the mailbox available and the slot free |
| `StoreLaws.ReceiveIs` | internal/store/store.go:381-410 | a code is taken exactly while the order waits and has time left and if it is not blank; the order has it, trimmed, the mailbox is free and the pair consumed |
| `StoreLaws.CompleteIs` | internal/store/store.go:412-424 | only an order with a code that the caller sees is completed; only its status and date change |
| `StoreLaws.TimeoutSweepIs` | internal/store/store.go:441-455 | an order became expired and refunded if and only if it was assigned or waiting and its time was up; every other order is unchanged, owners got exactly these prices back, their mailboxes are available with the timeout counted, and the count is the number of these orders |
| `StoreLaws.VainSweepIs` | internal/store/store.go:457-478 | the same of the orders that wait on a mailbox that is not verified; it ends in error with health 0 and the orders say why |
| `StoreLaws.MarksAre` | internal/store/store.go:656-700 | old mail consumes exactly an available slot, a registration exactly one that is available, cooling down or blocked; the five outcomes in full |
| `StoreLaws.DeleteIs` | internal/store/store.go:631-654 | exactly the mailboxes in error whose verification failed and that have no order go, if their number is the expected one or none was expected |
| `StoreLaws.EditIs` | internal/store/postgres_resources.go:80-107 | an administrator's edit, field by field |
| `StoreSweeps.SweepIgnoresWalk` | internal/store/store.go:441-478 | whatever order the map hands out its keys in, a sweep ends in the same state with the same count: exactly the orders that qualified at the start |
| `StoreSweeps.SweepTwice` | internal/store/store.go:441-478 | after a sweep nothing qualifies; sweeping again at the same instant changes nothing and counts zero |
| `StoreSweeps.SweepTouchesOnly` | internal/store/store.go:441-478 | a sweep changes exactly the qualifying orders, the mailboxes leased to them and the users owning them, nothing else |
| `StoreSweeps.SweepKeepsInv` | internal/store/store.go:457-478 | both sweeps keep the invariant |
| `StoreStock.CreateSucceedsIffStock` | internal/store/store.go:185-258 | for a valid, funded, fresh request CreateOrder succeeds exactly if the per-provider stock summed over the requested providers is positive, and otherwise changes nothing |
| `StoreStock.CreatedOnHealthiest` | internal/store/store.go:240-256 | the chosen mailbox is eligible and no eligible one is healthier |
| `StoreStock.CreateLowersStock` | internal/store/store.go:174-268 | a created order takes exactly its mailbox out of the stock of every platform; the ordered platform's count drops by one |
| `StoreStock.CreateThenCancelRestores` | internal/store/store.go:426-439 | canceling at once restores every balance, mailbox and slot; only the canceled order and the used sequence number remain |
| `MemoryStore.Store.New` | internal/store/store.go:40-99 | the new store is exactly the seeded one and satisfies the invariant |
| `StoreSeed.SeedStarts` | internal/store/store.go:75-99 | a run may start from a seeded store; all 24 seeded mailboxes are there |
| `StoreSeed.SeedMailboxesReady` | internal/store/store.go:83-98 | no two seeded identifiers coincide, and every seeded mailbox is idle and allocatable on every platform |
| `MemoryStore.Store.CreateOrder` | internal/store/store.go:211-270 | updating the records in place gives one of the outcomes of the specification `CreateStep`: the same refusals in the same order, the duplicate, or the lease of a healthiest candidate; nothing else changes. `StoreLaws.CreateAnswersExactly`, `CreatedTakes` and `CreatedIs` say in fields what these are |
| `MemoryStore.Store.ValidateOrderProviders` | internal/store/store.go:285-308 | accepts exactly a non-empty list of supported, allowed, priced providers, returns their first occurrences in order and the true maximum price |
| `MemoryStore.Store.SelectMailbox` | internal/store/store.go:240-256 | over any iteration order returns a healthiest candidate, or none exactly if there is no candidate |
| `MemoryStore.Store.ReceiveCodeValue` | internal/store/store.go:381-410 | order, mailbox and slot end as the specification says, with the same error in each refused case, and the invariant is kept |
| `MemoryStore.Store.CompleteOrder` | internal/store/store.go:412-424 | archives only an order with a code, visible to the caller |
| `MemoryStore.Store.CancelOrder` | internal/store/store.go:426-439 | cancels, refunds and releases only an active order visible to the caller, else changes nothing |
| `MemoryStore.Store.RefundAndReleaseLocked` | internal/store/store.go:705-721 | refund and release in place equal the specification the conservation and lease lemmas are about |
| `MemoryStore.Store.ReapExpired` | internal/store/store.go:441-455 | over any iteration order: an order became expired and refunded if and only if it was assigned or waiting and its time was up, every other order, mailbox and user is unchanged, and the number is that of these orders |
| `MemoryStore.Store.ReconcileInvalidMailboxOrders` | internal/store/store.go:457-478 | over any iteration order: an order became expired and refunded if and only if it was assigned or waiting on a mailbox that is not verified, everything else is unchanged, and the number is that of these orders |
| `MemoryStore.Store.DeleteInvalidMailboxes` | internal/store/store.go:631-654 | removes exactly the invalid mailboxes without an order and counts them, or fails without effect on a changed or zero count |
| `MemoryStore.Store.MarkMailboxServiceConsumed` | internal/store/store.go:656-674 | consumes an available slot, leaves every other slot alone |
| `MemoryStore.Store.MarkMailboxServiceRegistered` | internal/store/store.go:676-700 | consumes an idle slot, refuses a leased one, with the five outcomes told apart |
| `MemoryStore.Store.CountByProvider` | internal/store/store.go:190-207 | for every provider the count is the number of its allocatable mailboxes on the platform, which `StoreLaws.StockIs` describes field by field |
| `MemoryStore.Store.ServiceAvailabilityByProvider` | internal/store/store.go:185-209 | the table has an entry for each listed platform and the right count for each provider |
| `MemoryStore.Store.ServiceAvailability` | internal/store/store.go:174-183 | the sum over providers is the number of allocatable mailboxes, once for every time the platform is listed |
| `RowLocks.StepKeepsLocks` | internal/store/postgres.go:840-925 | in every interleaving, whatever a transaction has read under a row lock is still what the table holds |
| `RowLocks.WritesAreLocked` | internal/store/postgres.go:870-920 | each transaction writes only rows it has locked, and the one row it inserts |
| `RowLocks.CommitAsIfAlone` | internal/store/postgres.go:1343-1406 | the writes computed from a transaction's own copies are those it would compute from the tables at the moment of commit: no update is lost |
| `RowLocks.StepRefines` | internal/store/postgres.go:840-1170 | every step leaves the committed data alone or is one whole operation or batch of the deletion on it: interleavings refine one-at-a-time runs in commit order |
| `RowRuns.NoDoubleLease` | internal/store/postgres.go:876-916 | as long as no administrator's save commits over a lease it has not seen or invents one, no mailbox is ever held by two active orders, by an active order and an uncommitted allocation, or by two uncommitted allocations, with no help from the Redis lock |
| `RowRuns.LeasesLostExactly` | internal/store/postgres_resources.go:71-139 | in any interleaving a step parts leases from orders if and only if it commits a write of a mailbox row that changes or invents a lease |
| `RowRuns.LeaseGivenTwice` | internal/store/postgres_resources.go:71-139 | a run from a fresh world in which a save restores an idle row over a lease given since, and two active orders end up on one mailbox |
| `RowRuns.SaveLosesExactly` | internal/store/postgres_resources.go:71-139 | in every run, harmed before or not: a save that commits while leases and orders correspond parts them if and only if the stored row names another order than the row the save read, or none and the save leaves it marked as leased, be it that it asks for that or that it asks for nothing and the row it read was so marked |
| `RowRuns.FirstLossExactly` | internal/store/postgres_resources.go:71-139 | in a run that no save has harmed yet the last case cannot arise: the save parts them if and only if the order has changed or it asks for the state leased on an idle mailbox |
| `RowRuns.AskingForNothingLoses` | internal/store/postgres_resources.go:71-139 | why the simpler condition is only for such runs: a run from a fresh world in which a save that asks for nothing brings back a mark made by hand |
| `RowInvariant.SaveHarmsExactly` | internal/store/postgres_resources.go:71-107 | the condition of `SaveLosesExactly` on one row: it needs only that a row read with an order was marked as leased, which holds in every run |
| `RowInvariant.SaveKeepsExactly` | internal/store/postgres_resources.go:139 | writing a whole mailbox row keeps leases and orders in correspondence if and only if it keeps the lease in the stored row; money and ledger are kept in any case |
| `RowInvariant.InsertKeepsExactly` | internal/store/postgres_resources.go:108-139 | a new row, or one inserted again by a save whose row was deleted meanwhile, keeps them if and only if it is not marked as leased |
| `RowInvariant.RegisterKeepsDb` | internal/store/postgres_accounts.go:19-45 | a user who registers starts with nothing and no ledger line |
| `RowRuns.LedgerReplays` | internal/store/postgres.go:917-920 | per user each ledger line states the previous balance plus its amount, the first one starting from the opening balance; the last line, or the opening balance of a user without lines, is the stored balance; none is negative |
| `RowRuns.OrderChargedOnce` | internal/store/postgres.go:1343-1395 | the ledger lines of an order add up to minus its price, or to zero once it is canceled or expired |
| `RowRuns.OrderSettlesOnce` | internal/store/postgres.go:1033-1100 | over any interleaving an order keeps owner, mailbox, platform and price; once refunded it never changes, once it has a code it keeps it and is never refunded |
| `RowRuns.PaymentCreditedOnce` | internal/store/postgres_payments.go:158-226 | a payment's ledger total is its amount if completed and zero otherwise; completed and canceled payments never change again |
| `RowRuns.CallbackCreditsExactly` | internal/store/postgres_payments.go:174-221 | over a step of any interleaving: the ledger gains a line of the payment if and only if the step commits a callback that finds it pending, paid or expired and brings its exact amount; then it is one line of that amount to the payer and the payment becomes completed |
| `RowRuns.FailedVerificationReleases` | internal/store/postgres_resources.go:336-377 | after a failed verification commits no active order is bound to the mailbox, its order id is empty, no slot is leased, it is auth_error with health 0 or stays blocked, and the owner of the order was credited its price once in the same commit |
| `RowRuns.ConsumedLostExactly` | internal/store/postgres.go:881-916 | between transactions a consumed slot stops being consumed if and only if the step is the commit of an order being created on that pair, and disappears if and only if its mailbox is deleted |
| `RowRuns.ConsumedSlotRevived` | internal/store/postgres.go:881-916 | a concrete interleaving in which a slot consumed by a mail scan is leased again by an order already under way |
| `RowRuns.LookupsSucceed` | internal/store/postgres.go:1343-1368 | a transaction ending, receiving or reconciling an order finds every row it looks for after the one its caller named |
| `RowLaws.CreateCharges` | internal/store/postgres.go:896-920 | whenever an order's creation commits in any interleaving: the order states the price of the picked mailbox's provider, waits, and expires after 1800 seconds; exactly that price leaves the balance, in one ledger line; the mailbox carries the order, mailbox and slot are leased; no other row changes |
| `RowLaws.CreateTakes` | internal/store/postgres.go:868-893 | at that commit the mailbox is verified, available, without an order, of health 60 or more and reachable, its provider was requested, the order is new, and the user is active and can pay the maximum |
| `RowLaws.PickExactly` | internal/store/postgres.go:877-893 | which mailboxes a creation may take, column by column |
| `RowLaws.CreateDecides` | internal/store/postgres.go:870-876 | a creation is refused exactly if its user is not active or cannot pay the maximum, by the tables as they are then |
| `RowLaws.CancelDecides` | internal/store/postgres.go:1078-1100 | a cancellation commits exactly if the owner, or an administrator who names nobody, asks and the order waits and was not refunded |
| `RowLaws.ReapDecides` | internal/store/postgres.go:1102-1126 | a timeout commits exactly if the order waits, its time is up and it was not refunded |
| `RowLaws.RefundCommits` | internal/store/postgres.go:1343-1395 | either gives the price back with one ledger line, frees the mailbox with its health as it was, and frees the slot; a timeout is counted, and the fifth consumes the slot |
| `RowLaws.ReceiveDecides` | internal/store/postgres.go:1033-1050 | a code is taken exactly while its order waits and has time left, and if it is not blank |
| `RowLaws.ReceiveCommits` | internal/store/postgres.go:1050-1066 | the order has the trimmed code, the mailbox is free and the slot consumed; no money moves |
| `RowLaws.CompleteDecides` | internal/store/postgres.go:1072-1076 | only an order with a code is completed, by its owner or an administrator who names nobody |
| `RowLaws.CompleteCommits` | internal/store/postgres.go:1308-1341 | only the order's status changes |
| `RowLaws.VerificationCommits` | internal/store/postgres_resources.go:357-375 | a successful verification gives the row its connection and health 100 and makes it available if it was in error, or pending without an order; the third status changes connection and status only; users, orders, slots and ledger stay |
| `RowLaws.VerificationStored` | internal/store/postgres_resources.go:345-375 | whatever the result, the row has it; after a failure it has no order, and is in error with health 0 unless it was blocked, which stays as it is |
| `RowLaws.ReconcileDecides` | internal/store/postgres.go:1140-1160 | reconciling ends an order exactly if it waits on the mailbox and the mailbox is not verified |
| `RowLaws.ReconcileCommits` | internal/store/postgres.go:1140-1166 | the price is given back once; the mailbox ends without an order in error with health 0, except that a blocked one is made available by a refund |
| `RowLaws.AdjustDecides` | internal/store/postgres_accounts.go:225-229 | an adjustment is refused exactly if it would overdraw |
| `RowLaws.AdjustCommits` | internal/store/postgres_accounts.go:230-236 | any other moves the balance by the amount asked, sign included, and its one ledger line says so |
| `RowLaws.PaymentDecides` | internal/store/postgres_payments.go:108-226 | the exact conditions for creating (1.00 to 100000.00), canceling, expiring and completing a payment |
| `RowLaws.PaymentCommits` | internal/store/postgres_payments.go:108-172 | a payment starts pending and ends canceled or expired; no money moves |
| `RowLaws.TopUpCommits` | internal/store/postgres_payments.go:174-216 | an accepted callback pays the payer exactly the payment's amount, with one ledger line |
| `RowLaws.MarkDecides` | internal/store/postgres_resources.go:641-700 | old mail consumes exactly an available slot, a registration any that is neither leased nor consumed |
| `RowLaws.MarkCommits` | internal/store/postgres_resources.go:641-700 | only that slot changes, to consumed, its timeouts kept |
| `RowLaws.InsertCommits` | internal/store/postgres_resources.go:108-139 | a new user has no money, a new slot is available, a new mailbox has what was sent and names no order |
| `RowLaws.SaveCommits` | internal/store/postgres_resources.go:71-139 | a save writes the row it read with each field that was sent, the state only while that row names no order |
| `RowLaws.PurgeTakes` | internal/store/postgres_resources.go:225-245 | a batch of the deletion takes only failed mailboxes in error without an order, with exactly their slots |
| `RowInvariant.AloneKeepsExactly` | internal/store/postgres.go:840-1170 | each of the nineteen operations keeps balances non-negative and equal to the ledger, and order and payment totals right; it keeps leases one-to-one if and only if it is not a harmful save or insertion of a mailbox |
| `RowInvariant.CreateKeepsDb` | internal/store/postgres.go:870-920 | creating an order keeps money and ledger in order, and leases if they were |
| `RowInvariant.RefundKeepsDb` | internal/store/postgres.go:1343-1395 | so does a refund in any of its four forms, whatever row the mailbox is left with as long as it is not leased |
| `RowInvariant.ReceiveKeepsDb` | internal/store/postgres.go:1033-1066 | so does receiving a code |
| `RowInvariant.ReconcileKeepsDb` | internal/store/postgres.go:1128-1166 | so does reconciling an order on an unverified mailbox |
| `RowInvariant.VerifyKeepsDb` | internal/store/postgres_resources.go:336-377 | so does storing a verification result, failed or not |
| `RowInvariant.AdjustKeepsDb` | internal/store/postgres_accounts.go:219-250 | so does an administrative adjustment that does not overdraw |
| `RowInvariant.TopUpKeepsDb` | internal/store/postgres_payments.go:174-216 | so does crediting a payment |
| `AllocationLock.Redis.AcquireAllocationLock` | internal/store/postgres.go:931-946 | returns with the free key set to the caller's value for 15 seconds, or after more than five seconds with somebody else holding it, or with an error after which a free key may have been set all the same |
| `AllocationLock.Redis.ReleaseLock` | internal/store/postgres.go:1408-1411 | removes the key only if it still holds the caller's value |
| `AllocationLock.OnlyTheHolderReleases` | internal/store/postgres.go:1408-1411 | whatever all other clients do, a lock stays with its holder until it expires, and nobody else can set it |
| `AllocationLock.HolderReleases` | internal/store/postgres.go:1408-1411 | releasing a lock one holds frees it at once for anybody; releasing somebody else's does nothing |
| `AllocationLock.ExpiryAdmitsASecondHolder` | internal/store/postgres.go:931-936 | a second client gets the lock of a client still at work if and only if 15 seconds have passed, and the first one's release then leaves it alone |
| `JobQueue.QueueSafe` | internal/store/postgres_resources.go:494-544 | with any number of producers and consumers the list has no duplicates; the set is list plus popped plus stranded, these exclude each other; pushes are pops plus list; no two goroutines of a worker verify the same mailbox at once, and its in-flight table names exactly the mailboxes being verified |
| `JobQueue.StrandedForever` | internal/store/postgres_resources.go:528-544 | an identifier whose removal from the set failed is never queued or consumed again |
| `JobQueue.RedisQueue.EnqueueBatch` | internal/store/postgres_resources.go:494-513 | the script pushes each identifier that was not in the set once and returns how many those are |
| `JobQueue.PushAllAdds` | internal/store/postgres_resources.go:500-509 | what a batch adds: distinct, in order, exactly the identifiers missing from the set |
| `JobQueue.RedisQueue.Enqueue` | internal/store/postgres_resources.go:519-526 | the single enqueue |
| `JobQueue.RedisQueue.BRPop` | internal/store/postgres_resources.go:528-538 | takes the oldest identifier, or nothing from an empty list |
| `JobQueue.ClaimKeeps` | internal/mail/verification_worker.go:104-126 | the in-flight table keeps two goroutines of one worker off the same mailbox |
| `KeysetScan.QueueMailboxHistoryScans` | internal/store/postgres_resources.go:446-492 | terminates; submits exactly a prefix of the eligible mailboxes in pages of 500, all of them unless canceled or failed; eligible, submitted and counted differ at most by the page at which it failed |
| `KeysetScan.QueuedAreNew` | internal/store/postgres_resources.go:494-513 | the number reported as queued is the number of identifiers that were not in the set |
| `KeysetScan.EachSubmittedOnce` | internal/store/postgres_resources.go:459-490 | what is submitted is exactly the eligible mailboxes, each once |
| `KeysetScan.Poll` | internal/mail/microsoft.go:342-376 | polls every readable active mailbox up to and including the first page from which an undecryptable row was dropped, or a prefix of these if a query fails or the worker is stopped |
| `KeysetScan.PollCoversExactly` | internal/mail/microsoft.go:342-376 | an uninterrupted poll covers every readable mailbox if and only if no readable mailbox lies behind that page; in particular if every row decrypts |
| `KeysetScan.OneBadRowHidesTheRest` | internal/store/postgres_resources.go:307-315 | one undecryptable row, any among the first hundred active mailboxes, keeps every later one out of what is polled |
| `BulkDelete.Database.DeleteInvalidMailboxes` | internal/store/postgres_resources.go:200-270 | under arbitrary interference between batches it terminates, never deletes more than expected, succeeds only with exactly the expected number, and every batch is proper |
| `BulkDelete.Database.DeleteBatch` | internal/store/postgres_resources.go:225-255 | one transaction deletes up to the limit of invalid rows nobody holds, with exactly their slots and events, or nothing |
| `RowInvariant.PurgeKeepsDb` | internal/store/postgres_resources.go:225-245 | a batch of the deletion keeps money and ledger in order, and leases if they were |
| `BulkDelete.BatchInRun` | internal/store/postgres_resources.go:225-245 | in any run that no save has harmed, a batch on rows nobody holds is a step of the interleavings, takes no mailbox of an active order and leaves leases and orders in correspondence |
| `BulkDelete.BatchSparesOrders` | internal/store/postgres_resources.go:225-245 | a batch removes no mailbox of an active order, keeps leases and orders in correspondence, and takes no slot or event of another mailbox |
| `Webhooks.AttemptsBounded` | internal/store/postgres_webhooks.go:77-143 | over any run, however late failures are written, attempts never exceed five plus the manual retries, and a delivery at work always has an attempt |
| `Webhooks.SharedAfterRetryExactly` | internal/store/postgres_webhooks.go:77-143 | from any moment at which nobody is at work on a delivery: a second worker gets it, or can get it by one more step, if and only if somebody retries it by hand while a worker is on it |
| `Webhooks.SharedExactly` | internal/store/postgres_webhooks.go:82-101 | one more step can leave two workers on a delivery if and only if two are there or one is and the row is pending or retrying |
| `Webhooks.RetryAdmitsASecondWorker` | internal/store/postgres_webhooks.go:134-143 | such a run from the empty table: claimed, retried during the attempt, claimed by a second worker |
| `Webhooks.FailOne` | internal/store/postgres_webhooks.go:114-132 | retried exactly below five attempts, after 60, 300, 1800, 7200 or 43200 seconds, the clamped index always in range |
| `Webhooks.Repository.ClaimWebhookJobs` | internal/store/postgres_webhooks.go:77-107 | claims due rows up to the limit, pending or retrying and with their time come: one attempt more for enabled endpoints, failure for disabled ones, nothing at all if a secret does not decrypt |
| `Webhooks.Repository.FailWebhookJob` | internal/store/postgres_webhooks.go:114-132 | the attempts are read by one statement and the row, by then possibly changed, is written by another: status and delay are what `FailOne` says of the attempts read |
| `Webhooks.Repository.RetryWebhookJob` | internal/store/postgres_webhooks.go:134-143 | only the owner's existing delivery goes back to retrying |
| `Credentials.CredentialForGood` | internal/mail/verification.go:88-116 | over any run no stored field is dropped or emptied; the IMAP login method moves only from nothing to oauth to password; once it is password no token is refreshed again |
| `Credentials.Account.Verify` | internal/mail/verification.go:126-269 | with arbitrary answers of mail servers, token endpoints and database: verified if and only if the last mail server asked said yes (Graph for the mailbox's own account, or an IMAP login), everything done since worked and the status was stored; the method stored is the way it was proven, or auto with the status failed; each question, refresh and write is the one the rules name, a stored password is always tried before giving up, and an OAuth login that works is remembered; every write fits `CredentialForGood`, and with the password method nothing is written |
| `Credentials.Account.ReadMessages` | internal/mail/verification.go:274-375 | the same of reading mail: read if and only if the last mail server asked answered and everything done since worked |
| `Credentials.Account.PollCredential` | internal/mail/microsoft.go:378-500 | the same of the credential part of a poll, which asks over one way only; a failure is reported as IMAP or Graph, a success over Microsoft IMAP as verified |
| `Credentials.Account.RefreshGoogle` | internal/mail/verification.go:549-576 | when it uses the stored token, refreshes or gives up; only a refreshed and stored token counts as ready; every write fits `CredentialForGood` |
| `Credentials.Account.PersistImapAuthMethod` | internal/mail/verification.go:433-440 | nothing is written if the choice was already made; else the stored credential becomes the one in hand with the choice, or stays as it was if the database refuses |
| `Credentials.MergeGrows` | internal/mail/verification.go:450-458 | merging refreshed tokens keeps every filled field and the login method |
| `Credentials.MergeIs` | internal/mail/verification.go:450-458 | a refreshed value that is not empty replaces the old one; every other value stays |
| `Credentials.Account.VerifyGraphAccess` | internal/mail/verification.go:414-424 | Graph counts only if the account behind the token is the mailbox's own and its messages can be read with it |
| `Credentials.Account.VerifyOverGraph` | internal/mail/verification.go:142-191 | the Graph attempt: an expired token is refreshed first, success needs a successful Graph access in this call and the credential stored |
| `Credentials.Account.VerifyOverImap` | internal/mail/verification.go:193-258 | the IMAP attempt: success needs a successful login, with what is sent named, and the choice of a first OAuth or password login stored |
| `Credentials.OAuthRules` | internal/mail/verification.go:88-112 | when a Microsoft mailbox uses OAuth over IMAP, by what its credential says |
| `Credentials.PasswordRule` | internal/mail/verification.go:114-116 | when it uses its password |
| `Credentials.SentIs` | internal/mail/verification.go:462-476 | what is sent: no access token beside a password, and for a refresh neither token nor date |
| `Credentials.FallbackIs` | internal/mail/verification.go:527-539 | what it takes to fall back to IMAP |
| `Credentials.Account.NeedsRefreshExactly` | internal/mail/verification.go:478-484 | a token is refreshed if it is missing or its stated end has come |
| `CodeDelivery.ReceiptsTell` | internal/mail/microsoft.go:502-543 | over any number of polls and other calls no order has two accepted codes, no order with an accepted code is refunded, and an accepted message passes its order's filter if and only if it carries a date, not after the order's expiry and, without an assignment time, not long before its creation; in particular if it is not dated after the acceptance |
| `CodeDelivery.Poller.Poll` | internal/mail/microsoft.go:502-543 | per message at most one code is accepted, per order at most one in the poll; the receipts added are exactly those of the acceptances, in order, each for that order and that message; and a message is recorded as seen only if its code was accepted or no in-window order's rule matched it |
| `CodeDelivery.Poller.PollMessage` | internal/mail/microsoft.go:502-542 | a message is offered for recording if and only if it falls in some order's window and was accepted or no rule of an order in whose window it falls finds a code in it |
| `CodeDelivery.Poller.ReceiveCodeValue` | internal/mail/microsoft.go:530-537 | an acceptance adds exactly one receipt, for an order that had none |
| `CodeDelivery.AcceptedIsVisible` | internal/mail/microsoft.go:502-616 | what the poll listens to and the store accepts matches the platform's rule, and lies in the owner's window if and only if its dates do; for orders with an assignment time every message not dated after its acceptance does |
| `CodeDelivery.MessageMatchesService` | internal/mail/microsoft.go:568-589 | the two loops decide exactly: some sender domain matches and some keyword occurs |
| `CodeDelivery.MatchesExactly` | internal/mail/microsoft.go:568-589 | a sender matches at or below a domain, a subject if a keyword occurs in it, with blank entries and letter case ignored |
| `CodeDelivery.AllIsSearched` | internal/mail/microsoft.go:545-566 | subject and preview are searched, and so is the body unless it is the preview again |
| `CodeDelivery.ListenedExactly` | internal/mail/microsoft.go:504-512 | the poll listens from one minute before the order's assignment, or its submission without one |
| `CodeDelivery.FilterMessagesForOrder` | internal/mail/microsoft.go:592-616 | keeps exactly the messages that match the platform and are dated from one minute before the order's assignment, or its submission, to its expiry, in order |
| `Money.CentsReadBack` | internal/store/postgres.go:1413-1478 | a stored amount up to 2 to the power of 50 cents survives the way out as a double and back, through a rounded division and a rounded multiplication, also when negative |
| `Money.CentsNearest` | internal/store/postgres.go:1478 | a decimal is stored as a nearest cent, up to the rounding of one multiplication |
| `Money.MaximumBoundsCharge` | internal/store/postgres.go:858-896 | the maximum taken over decimals and compared in cents bounds the price of every requested provider and is one of those prices |
| `Money.EffectiveProviderPricesCents` | internal/store/postgres.go:1488-1499 | both loops give an allowed provider its own price, else the old single price, and no other provider a price it has not of its own |
| `Money.OwnPriceWins` | internal/store/postgres.go:1488-1499 | a provider's own price wins over the single price, which only fills in for allowed providers without one |

## Left out

- HTTP handlers, the web interface, configuration, start-up migrations, overview statistics and paged listings: plumbing.
- OAuth, Graph, IMAP and payment gateways, MIME, password hashing, encryption and signatures: arbitrary answers or parameters.
- Floating point: prices and balances are cents; `Money` has the crossing from and to doubles, of which it uses only that rounding keeps order and is close. Overflow is not modelled.
- Money.CentsReadBack: says nothing of amounts beyond 2 to the power of 50 cents; somewhere above them doubles no longer tell neighbouring cents apart.
- Timestamps kept for display only (`changed_at`, audit and delivery times), pool names and the mail counters other than `todayCodes`.
- The clock within one operation: the in-memory sweeps read it once per order, the model once per sweep.
- Integer widths: the order sequence and the counters do not wrap.
- Strings: trimming and case folding are for ASCII.
- Services in the in-memory store are values in a map, not pointers; no modelled operation updates one in place.
- The public operations of `MemoryStore.Store` are one mutex-held step each; parts of the long ones are separate methods (`FindRequest`, `Allocate`, `SelectMailbox`, `LeaseLocked`, `CountByProvider`, `AddSeedUsers`, `AddSeedMailboxes`), and unsuccessful eligibility tests are one predicate instead of three `continue`s.
- StoreRuns.SaveMailboxExactly: the edit of a row as one step, without the time between its read and its write; `RowRuns` has that.
- `SaveMailbox` in `Rows`: the row is looked up by its identifier, not by its address; the slots a save adds for missing platforms are separate transactions. A save whose row is gone by then inserts it again, as the ORM does (`ReinsertMailbox`).
- The batched deletion in `Rows`: the statements of one batch are one step on rows nobody holds, so a slot added between two of them is not modelled.
- `DeleteMailbox` and `DeleteService` are not steps of `Rows`, and nothing `RowRuns` says is about runs with them. `DeleteMailbox` too reads the lease without a lock, so a deletion that an order overtakes removes the mailbox of an active order.
- Request ids in the PostgreSQL store: looked up without a lock and guarded by an index whose exact form the ORM derives; the in-memory store's are modelled.
- The ordering of the PostgreSQL mailbox query and its pool, cooldown and daily limit filters: any eligible row that nobody holds may be picked, which includes every real choice. A daily limit is not a hard cap there anyway. Reading the slot and locking the mailbox row is one step.
- Waiting and deadlock in PostgreSQL: a transaction that cannot go on may be aborted; progress is not claimed.
- `ReapExpiredPaymentOrders`: the rows of its one statement are separate transactions in `Rows`.
- The list of orders the two PostgreSQL sweeps start from: each order of it is its own transaction, so their counts are not stated; those of the in-memory sweeps are.
- Webhook delivery itself is the worker's, its outcome arbitrary; an update whose answer is lost is not modelled.
- Eventual delivery from the Redis queue: a failed removal strands an identifier (`JobQueue.StrandedForever`). Loss of the Redis data is not modelled; a worker process that dies with mailboxes in flight takes its table with it and is not modelled either.
- Editing platforms while a poll is under way, and mail arriving during it: `CodeDelivery` polls a fixed list of messages.
- `Credentials.Account`: `Attempt`, `VerifyOverGraph`, `VerifyOverImap`, `PrepareImap`, `PollRefresh` and the like are parts of the three operations as separate methods; error texts, deadlines and the audit trail are left out.
- `KeysetScan`: the tables do not change while a loop pages through them.
- KeysetScan.Poll: mailboxes of a page are polled one after another instead of concurrently.
