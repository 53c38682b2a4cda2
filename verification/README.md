# Naivolt API: a verified model of its money, sign-in and catalogue protocols

This project models the parts of the Rust API where several requests, workers and
suppliers act on the same rows, and proves what holds whatever order they act in.

* **Money** (`Ledger`, `Funding`, `FundingReconciler`, `NumberOrders`, `MoneyTables`,
  `MoneyRuns`, `MoneyTheorems`, `MoneyBalances`, `MoneyClaims`, `AdminRecovery`). Each SQL
  transaction is one atomic step on the tables. A handler that spans several transactions is several steps, and any other
  step may come in between: a poll reads `pending`, hears the provider later, and commits
  later still. `MoneyRuns.Step` lists the twenty-four kinds of step; the theorems speak of
  every finite sequence of them from an empty database.
* **Sign-in** (`Sessions`, `Otp`, `AdminRecovery.Lockouts`). Refresh-token families, one-time
  codes and the operator's second-factor lockout, over every run. Rotation follows the scheme
  of section 4.14.2 of RFC 9700.
* **Audit chain** (`Json`, `AuditChain`). The hashed text has no separators; it is still
  uniquely decodable, so the last hash pins down the whole log or exhibits a collision.
* **Catalogue** (`Catalogue`, `CatalogueTheorems`, `StoppedSyncs`, `PriceLines`, `Aggregator`,
  `Smspool`, `GiftCards`, `Activate`). The price-list sync as a script of database statements, the ranking score, and
  the loops and parsers that must agree with a simple definition.
* **Feed** (`Timestamps`, `ActivityFeed`). Sorting RFC 3339 texts as strings is sorting
  instants, although fractions print with 0, 3, 6 or 9 digits; section 5.1 of RFC 3339
  promises this only for equal digit counts.

`Base` holds what the modules share. `dafny verify dfyconfig.toml` checks everything.

## How the model is set up

* Tables that only grow are sequences; a row's position stands for its id. Fresh random values
  (claim tokens, session families, hashes of new tokens) are step parameters that the step
  refuses when they are already in use. Instants are step parameters and need not be monotone
  unless a theorem says so.
* Money is `real`; no rounding happens on the paths modelled. The catalogue's
  columns keep their width and decimals; other counters are unbounded, as nothing depends on
  their width.
* An idempotency key is a datatype value; `Ledger.RenderInjective` shows that the stored texts
  of different keys differ.
* The digest is an arbitrary function from text to 64 hexadecimal digits. Nothing assumes that
  it is injective.
* What each operation decides is stated a second time on the columns and in numbers, apart from the
  functions that compute it: `MoneyClaims`, `PriceLines`, `Funding.AReplySettles`,
  `Sessions.RotatesIff`, `Otp.AGuessIsAnsweredBy` and their like.
* Classes carry the tables a handler updates, and each method is proved against a function of
  the old state. The lemmas are about those functions.

## What the proofs found

* A charge confirmed before the 24-hour window closes can be committed after it: the user is
  credited, the caller is told "succeeded", and the row stays `abandoned`
  (`MoneyTheorems.AnAbandonedIntentMayBeCredited`, with the exact condition in
  `Funding.ReportedSuccessMatchesTheRow`).
* `overview` negates the sums of user balances and revenue but not the pending sum, so money
  held for orders is the negation of its `pending_ngn` (`MoneyTheorems.FloatIsFullyAccounted`).
* `recheck_order` and `cancel_order` read the order before they claim it and act on what they read,
  which can be stale. Runs from the empty database give a started purchase back as "not started",
  or give it back and never release its number (`MoneyTheorems.AStartedPurchaseMayBeGivenBack`), or
  send an order with a number to review as an unknown outcome
  (`MoneyTheorems.AnAssignedNumberMayGoToReview`). Each of the three is right exactly when the row
  the claim was granted on says so, which the claim could return
  (`MoneyTheorems.NotStartedRefundIsRightIff`, `SilentCancelIsRightIff`, `UnknownReviewIsRightIff`).
* A claim pins every field of its row except the supplier and the offering it was bought as, and
  those too unless the row it was granted on is a started purchase of an offer that has not noted
  its source (`MoneyTheorems.ACurrentClaimPinsTheRow`). The purchase writes that note by the order's
  id alone, so a worker can hold a current claim on a row that names another supplier than the one
  it was granted (`MoneyTheorems.AClaimDoesNotPinTheSupplier`). The supplier read under a claim can
  be relied on exactly when the row read says "not started, or not bought by offer, or source
  noted" (`MoneyTheorems.TheSupplierReadIsCurrentIff`).
* No run leaves a user owing money while the provider reports no negative amount
  (`MoneyBalances.NobodyOwesInAnyRun`). A negative amount is refused on a pending row but posted for
  one closed meanwhile, and can overdraw the user (`MoneyBalances.ANegativeAmountMayOverdraw`, with
  the exact condition in `MoneyBalances.SettlingTakesMoneyIff`).
* An operator's refund and its audit row are two transactions. If the process stops between
  them, the idempotency key answers with a conflict instead of a replay, however the run goes on
  (`MoneyTheorems.AppliedRefundReplaysIffAudited`).
* The status a settlement reports is the row's status exactly when the row was still pending or
  already had it (`Funding.ReportIsTheRowsIff`).
* A sweep takes its whole batch off the backlog exactly when the provider has finished with every
  charge in it (`FundingReconciler.SweepTakesItsBatchIff`); what it leaves open can run out of
  its window before the sweep ends, because the abandonment reads the clock anew.
* `evaluate_refresh` looks for reuse before revocation, so presenting an exchanged token of a
  family that is already revoked is reported as reuse again. The family stays dead either way.
* The resend cooldown bounds sends in every window whatever the handlers' clocks read; a
  non-decreasing clock is not needed (`Otp.SendsAreRateLimited`).
* A right code that meets an identity conflict rolls the whole transaction back: the code stays
  usable and the attempt is not counted (`Otp.AGuessLeavesNoTraceIff`).
* The parser accepts success rates down to anything above zero, but the column keeps four decimals
  and refuses zero: a rate under 0.00005 stops the sync (`Catalogue.ParsedRateIsStorableIff`).
  A stopped sync has overwritten quantities that nothing recomputes until the next sync that
  succeeds (`CatalogueTheorems.AStoppedSyncLeavesAWrongQuantity`); an overwritten quantity is still
  the sum exactly when no other source of the offer has stock
  (`StoppedSyncs.AStoppedQuantityIsTheSumIff`). A sync succeeds exactly when
  every line it takes passes the row checks as stored and every sum fits the quantity column
  (`CatalogueTheorems.SyncSucceedsIff`).
* A purchase whose supplier is out of stock zeroes that source and recomputes nothing, so the
  offer's quantity stays the sum only if the source had no stock to lose
  (`StoppedSyncs.OutOfStockKeepsTheSumIff`).
* With a price list that cannot be converted to naira, a sync that zeroes unseen sources takes
  the supplier off the shelf (`CatalogueTheorems.UnconvertiblePricesHideTheSupplier`).
* The gift-card query orders by brand name, which is not unique, while the loop groups by id.
  A brand is listed twice exactly when its rows do not stand together
  (`GiftCards.EachBrandOnceIff`, `GiftCards.SharedNamesSplitABrand`).
* Which SMSPool service is chosen can depend on the order of the catalogue: it does not exactly
  when, for each slug, all candidates that nothing beats carry one id
  (`Smspool.OrderIndependentIff`).

## Model

| member | source | states |
|---|---|---|
| Ledger.RenderInjective | backend-rs/crates/api/src/number_order_transitions.rs:345-513 | Credit, settle, refund and reserve keys of different events never share a stored text. |
| Ledger.Build | backend-rs/crates/ledger/src/journal.rs:144-185 | A journal builds exactly when it has two entries, none zero, every asset sums to zero and custody journals touch no liability; each error names its cause, a custody error the first entry that touches one. |
| Ledger.Find | backend-rs/crates/ledger/src/journal.rs:193-236 | The lookup by key finds a journal with that key whenever there is one. |
| Ledger.Post | backend-rs/crates/ledger/src/journal.rs:193-236 | Posting only appends, adds at most one journal, and names a journal with the posted key. |
| Ledger.PostIsIdempotent | backend-rs/crates/ledger/src/journal.rs:193-236 | A retry at any later time, even with other entries, writes nothing and names the first journal. |
| Ledger.PostKeepsBook | backend-rs/crates/ledger/src/journal.rs:193-236 | Keys stay unique and journals stay balanced. |
| Ledger.Journals.PostJournal | backend-rs/crates/ledger/src/journal.rs:193-236 | The insert-or-select refines `Post`; a taken key leaves the table as it was. |
| Ledger.LedgerNetsToZero | backend-rs/crates/ledger/src/journal.rs:144-185 | Every naira ledger of valid journals sums to zero. |
| Ledger.CustodyCannotTouchBalances | backend-rs/crates/ledger/src/journal.rs:168-185 | A sweep or gas journal changes no user's balance. |
| Ledger.CustodyMovesNoLiability | backend-rs/crates/ledger/src/journal.rs:168-185 | A sweep or gas journal leaves each of the four sums owed to users as it was. |
| Funding.ReportedSuccessMatchesTheRow | backend-rs/crates/api/src/funding_routes.rs:178-286 | A confirmed charge always reports success and leaves a credit in the ledger; the row ends succeeded exactly when it was pending or succeeded. |
| Funding.ReportIsTheRowsIff | backend-rs/crates/api/src/funding_routes.rs:178-210 | For every answer of the provider, the reported status is the row's exactly when the row was pending or already had it; an error changes nothing. |
| Funding.TheCallerHearsTheProvider | backend-rs/crates/api/src/funding_routes.rs:178-210 | For every answer and every row, what the caller is told: the provider's word, or an error exactly for a zero credit or a negative one while pending. |
| Funding.AReplySettles | backend-rs/crates/api/src/funding_provider.rs:166-205 | By the reply's own fields: a pending top-up fails exactly on "failed" or "reversed", succeeds for kobo/100 exactly on "success" with kobo > 0, errs on "success" with kobo <= 0, and stays as it was, reported pending, on anything else. |
| Funding.AReplyCredits | backend-rs/crates/api/src/funding_routes.rs:242-286 | The ledger gains the user's credit of the provider's kobo, from the float, exactly when the row succeeds, and nothing otherwise. |
| Funding.AnIntentIsOpenedIff | backend-rs/crates/api/src/funding_routes.rs:68-136 | An intent is opened exactly for 100 to 1,000,000 naira in whole kobo under a new reference, with its columns as asked. |
| Funding.ATopUpIsAbandonedIff | backend-rs/crates/api/src/funding_reconciler.rs:100-112 | Exactly the live provider's pending rows over twenty-four hours old are abandoned. |
| Funding.FundingStore.CreateIntent | backend-rs/crates/api/src/funding_routes.rs:68-136 | Amount limits, then a pending row with a fresh reference; an error leaves everything as it was. |
| Funding.FundingStore.CreditDeposit | backend-rs/crates/api/src/funding_routes.rs:242-286 | Journal and row together or not at all, and rows only advance. |
| Funding.FundingStore.SettleIntent | backend-rs/crates/api/src/funding_routes.rs:178-210 | The whole new state and the reported status for every provider answer, including none. |
| Funding.FundingStore.GetIntent | backend-rs/crates/api/src/funding_routes.rs:139-210 | Another user's intent is not found; a closed one is reported without asking; an open one becomes failed, succeeded or stays as it is exactly by the fields of the provider's reply. |
| FundingReconciler.BatchExists | backend-rs/crates/api/src/funding_reconciler.rs:70-85 | The oldest-fifty query always has an answer that meets its definition. |
| FundingReconciler.TheSweepAsksTheOldest | backend-rs/crates/api/src/funding_reconciler.rs:69-85 | The sweep asks about min(50, n) of the n open live rows between twenty seconds and twenty-four hours old, each once, oldest first. |
| FundingReconciler.Reconciler.RunSweep | backend-rs/crates/api/src/funding_reconciler.rs:69-112 | The settlement loop and the bulk abandonment at a later instant compute `AfterSweep`. |
| FundingReconciler.SettleAllClosesTheBatch | backend-rs/crates/api/src/funding_reconciler.rs:87-98 | Whatever the provider says of each charge, the finished ones are closed as it said, every other row is untouched, and the eligible count falls by their number. |
| FundingReconciler.AbandonSparesTheWindow | backend-rs/crates/api/src/funding_reconciler.rs:100-112 | Abandonment touches no closed row and none inside the window. |
| FundingReconciler.SweepSettlesTheOldest | backend-rs/crates/api/src/funding_reconciler.rs:69-112 | The whole fate of the oldest min(50, n) eligible intents and of the others, for every mix of answers: closed, left as it was, or abandoned if its window ran out before the sweep ended. |
| FundingReconciler.SweepTakesItsBatchIff | backend-rs/crates/api/src/funding_reconciler.rs:69-112 | A sweep takes min(50, n) off the backlog exactly when every charge in the batch is finished. |
| FundingReconciler.BacklogFallsByTheFinished | backend-rs/crates/api/src/funding_reconciler.rs:40-112 | Inside the window, any chain of sweeps takes exactly the finished charges off the backlog. |
| FundingReconciler.BacklogDrains | backend-rs/crates/api/src/funding_reconciler.rs:40-112 | With finished charges inside the window, k sweeps leave max(0, n - 50k) of n pending intents. |
| FundingReconciler.CeilingOfRounds | backend-rs/crates/api/src/funding_reconciler.rs:40-112 | The backlog is gone exactly from ceil(n / 50) sweeps on. |
| FundingReconciler.UnpaidOldestHoldTheQueue | backend-rs/crates/api/src/funding_reconciler.rs:70-98 | While a whole batch stays unpaid the same fifty rows may be picked again and nothing moves. |
| NumberOrders.ApplyMoves | backend-rs/crates/api/src/number_order_transitions.rs:515-680 | A transition settles, refunds or changes nothing, and acts only on a held order and only with the current token. |
| NumberOrders.MessagesAreStoredOnce | backend-rs/crates/api/src/number_order_transitions.rs:277-312 | An answer adds to the inbox exactly the messages whose key is new, once each, in order. |
| NumberOrders.ApplyCheckMoves | backend-rs/crates/api/src/number_order_transitions.rs:115-275 | A supplier's answer settles a held order exactly when a code that is not only spaces is in the inbox, refunds it exactly when it is given up with an empty inbox, and otherwise leaves its money alone. |
| NumberOrders.CheckKeepsTheSource | backend-rs/crates/api/src/number_order_transitions.rs:115-275 | No supplier's answer changes where an order was bought. |
| NumberOrders.SettleAfterNote | backend-rs/crates/api/src/number_order_transitions.rs:345-413 | Settling after noting messages and expiry is the settlement of the order as it was. |
| NumberOrders.RefundAfterNote | backend-rs/crates/api/src/number_order_transitions.rs:458-513 | Refunding after noting or claiming is the refund of the order as it was. |
| MoneyTables.CreateKeeps | backend-rs/crates/api/src/funding_routes.rs:104-115 | Opening an intent keeps the whole invariant. |
| MoneyTables.StatusKeeps | backend-rs/crates/api/src/funding_reconciler.rs:100-112 | Failing or abandoning pending intents keeps it. |
| MoneyTables.CreditKeeps | backend-rs/crates/api/src/funding_routes.rs:242-286 | A credit keeps it, however old the caller's read. |
| MoneyTables.ReserveKeeps | backend-rs/crates/api/src/number_routes.rs:710-794 | A reservation keeps it, and its key was free. |
| MoneyTables.QuietKeeps | backend-rs/crates/api/src/number_reconciler.rs:233-321 | Claims, releases and review marks keep it. |
| MoneyTables.SettleKeeps | backend-rs/crates/api/src/number_order_transitions.rs:345-413 | A settlement keeps it: pending money becomes revenue. |
| MoneyTables.RefundKeeps | backend-rs/crates/api/src/number_order_transitions.rs:458-513 | A refund keeps it: pending money goes back to the user. |
| MoneyRuns.NextKeeps | backend-rs/crates/api/src/number_reconciler.rs:55-321 | Every step of every handler, rechecks and the purchase's note of its source included, keeps the invariant of tables, calls, claims, refund jobs and audits, and rows only advance. |
| MoneyRuns.RunKeeps | backend-rs/crates/api/src/number_reconciler.rs:55-321 | So does every run. |
| MoneyRuns.OperatorRefundApplies | backend-rs/crates/api/src/admin_recovery.rs:775-844 | With the claim the operator took, the refund either cancels a held order or changes nothing. |
| MoneyTheorems.EveryReferenceCreditedOnce | backend-rs/crates/api/src/funding_routes.rs:178-286 | In every run each provider reference has at most one credit, to its own user; a pending intent has none; a succeeded one names its journal and amount. |
| MoneyTheorems.ClosedIntentsStayClosed | backend-rs/crates/api/src/funding_routes.rs:188-286 | A succeeded, failed or abandoned row never changes in any continuation. |
| MoneyTheorems.AnAbandonedIntentMayBeCredited | backend-rs/crates/api/src/funding_routes.rs:271-281 | The converse fails: for any amount but zero, a run in which an abandoned row's user was credited it. |
| MoneyTheorems.FloatIsFullyAccounted | backend-rs/crates/api/src/admin_routes.rs:131-142 | In every run float equals user balances plus revenue plus prices of held orders, and pending is minus the last. |
| MoneyTheorems.BalanceIsCreditsLessOrders | backend-rs/crates/api/src/number_routes.rs:710-722 | In every run a balance is the user's credits less their held and delivered orders. |
| MoneyTheorems.OrdersCloseOnce | backend-rs/crates/api/src/number_order_transitions.rs:345-513 | In every run an order has the settle journal exactly when delivered, the refund journal exactly when refunded, and never both. |
| MoneyTheorems.ClosedOrdersStayClosed | backend-rs/crates/api/src/number_order_transitions.rs:515-680 | Owner, price and reference never change, and a closed order's status and journals never change again. |
| MoneyTheorems.ACurrentClaimPinsTheRow | backend-rs/crates/api/src/number_reconciler.rs:233-321 | While a token is current the row is the one it was granted, except that supplier and offering may have been noted if that row was a started offer purchase without a noted source. |
| MoneyClaims.ALiveClaimIsNotTakenOver | backend-rs/crates/api/src/number_reconciler.rs:233-269 | In any world, no step that asks for a claim changes a row whose claim has not run out. |
| MoneyClaims.AClaimIsGrantedIff | backend-rs/crates/api/src/number_reconciler.rs:55-269 | Worker, operator and customer each get a row for sixty seconds exactly when its status is in their reach and it is unclaimed or its claim ran out. |
| MoneyClaims.APurchaseStartsIff | backend-rs/crates/api/src/number_routes.rs:794-806 | A purchase starts exactly on a reserved, never started order that nobody holds. |
| MoneyClaims.ARefundIsClaimedIff | backend-rs/crates/api/src/admin_recovery.rs:785-800 | A refund request gets its claim on the operator's terms and ends there without one. |
| MoneyClaims.AnErrandIsClaimedIff | backend-rs/crates/api/src/admin_recovery.rs:584-630 | Rechecks claim on the operator's terms and cancellations on the customer's. |
| MoneyClaims.ATransitionClosesIff | backend-rs/crates/api/src/number_order_transitions.rs:515-680 | A transition settles or refunds exactly an open order, under a token that holds it or none, with a reason for a refund; anything else changes nothing. |
| MoneyClaims.ANumberIsAssignedIff | backend-rs/crates/api/src/number_routes.rs:930-950 | The purchase's number is written exactly while the order is reserved and the token holds it. |
| MoneyClaims.AReviewIsMarkedIff | backend-rs/crates/api/src/number_reconciler.rs:298-321 | An order goes to review exactly while it is reserved or waiting and the token holds it. |
| MoneyClaims.AnAnswerDecides | backend-rs/crates/api/src/number_order_transitions.rs:115-275 | The status, inbox, expiry and claim that any supplier's answer leaves, for every row and token, and when it is ignored. |
| MoneyClaims.AnOrderIsOpenedIff | backend-rs/crates/api/src/number_routes.rs:710-794 | An order is opened exactly for a price above zero the user can pay, under a new key and reference; the price is reserved. |
| MoneyClaims.JournalsMoveThePrice | backend-rs/crates/api/src/number_order_transitions.rs:345-513 | The three journals move the price from the user to pending, from pending to revenue, and back, and are valid. |
| MoneyClaims.ARefundIsAnsweredBy | backend-rs/crates/api/src/admin_recovery.rs:741-790 | What a refund request is told, by the row and the audits: replay, missing, conflict, over the cap or accepted. |
| MoneyClaims.ARecheckStartsIff | backend-rs/crates/api/src/admin_recovery.rs:584-630 | A recheck starts from what it reads, unless the order is in review without a number. |
| MoneyClaims.ACancellationStartsIff | backend-rs/crates/api/src/number_routes.rs:1034-1080 | A cancellation goes ahead exactly for the owner of a reserved or waiting order with an empty inbox. |
| MoneyClaims.ACancellationRefundsIff | backend-rs/crates/api/src/number_routes.rs:1080-1150 | Once it holds the row it gives the money back exactly when it read no number, or the supplier answered, had no message, was open and let go. |
| MoneyClaims.ARecheckDoes | backend-rs/crates/api/src/admin_recovery.rs:584-720 | What a recheck does by what it read and what the supplier answers. |
| MoneyClaims.ATopUpIsReadIff | backend-rs/crates/api/src/funding_routes.rs:139-170 | A poll or sweep goes on exactly with a pending row and remembers its owner, reference and amount. |
| MoneyClaims.AReplyIsHeardOnce | backend-rs/crates/api/src/funding_provider.rs:166-205 | What a reply means by its fields, heard once per call; no table changes. |
| MoneyClaims.ACallIsCommittedOnce | backend-rs/crates/api/src/funding_routes.rs:178-210 | A call ends with its commit, whose tables are the settlement's; a second commit changes nothing. |
| MoneyTheorems.SourceIsNotedOnce | backend-rs/crates/api/src/number_routes.rs:784-836 | In every continuation an order was bought where it was, or, if bought by offer with nothing noted, where its one note says. |
| MoneyTheorems.ANotedSourceIsFinal | backend-rs/crates/api/src/number_routes.rs:784-836 | A noted supplier and offering never change in any continuation. |
| MoneyTheorems.TheSupplierReadIsCurrentIff | backend-rs/crates/api/src/number_routes.rs:784-836 | In every run, the supplier read under a token stays the row's in every continuation that keeps the token on the row, exactly when the row read is not a started offer purchase without a noted source. |
| MoneyTheorems.AClaimDoesNotPinTheSupplier | backend-rs/crates/api/src/number_routes.rs:820-832 | A run in which a worker's claim is current and the row names another supplier than the worker was granted. |
| MoneyTheorems.NotStartedRefundIsRightIff | backend-rs/crates/api/src/admin_recovery.rs:584-655 | In every run, a recheck's "not started" refund hits an order whose purchase has not started exactly when the row its claim was granted on says so. |
| MoneyTheorems.UnknownReviewIsRightIff | backend-rs/crates/api/src/admin_recovery.rs:584-656 | In every run, a recheck's "outcome unknown" review hits an order without a number exactly when the row its claim was granted on names none. |
| MoneyTheorems.SilentCancelIsRightIff | backend-rs/crates/api/src/number_routes.rs:1034-1098 | In every run, a cancellation that asks no supplier hits an order without a number exactly when the row its claim was granted on names none. |
| MoneyTheorems.ReadThenClaimMayBeStale | backend-rs/crates/api/src/admin_recovery.rs:584-655 | From any fresh order, five steps by which a recheck or a cancellation gives back a purchase that started and got its number after it read. |
| MoneyTheorems.AStartedPurchaseMayBeGivenBack | backend-rs/crates/api/src/admin_recovery.rs:584-655 | A run from the empty database in which that happens, for either kind. |
| MoneyTheorems.AnAssignedNumberMayGoToReview | backend-rs/crates/api/src/admin_recovery.rs:584-656 | A run in which an order with a number goes to review as an unknown outcome. |
| MoneyTheorems.OperatorRefundsRespectTheCap | backend-rs/crates/api/src/admin_recovery.rs:741-844 | In every run an operator refund moves money only for one held order priced within the cap. |
| MoneyTheorems.AuditsNameTheRefund | backend-rs/crates/api/src/admin_recovery.rs:800-844 | No order is audited as refunded twice, and each audit names the order's refund journal. |
| MoneyTheorems.AuditedRefundsReplay | backend-rs/crates/api/src/admin_recovery.rs:741-775 | In every continuation, an audited key changes nothing and answers with the audited journal. |
| MoneyTheorems.AppliedRefundReplaysIffAudited | backend-rs/crates/api/src/admin_recovery.rs:790-844 | After the refund transaction the key replays in every continuation if the audit is written, and conflicts in every continuation if the process stops first. |
| MoneyBalances.SettlingTakesMoneyIff | backend-rs/crates/api/src/funding_routes.rs:242-286 | A settlement lowers a balance exactly when it is the payer's, the confirmed amount is negative, the row is no longer pending and nothing was credited for it. |
| MoneyBalances.NobodyOwesInAnyRun | backend-rs/crates/api/src/number_routes.rs:710-722 | While the provider reports no negative amount, every balance is non-negative in every run. |
| MoneyBalances.ANegativeAmountMayOverdraw | backend-rs/crates/api/src/funding_routes.rs:271-281 | A run with one negative amount that ends with a negative balance. |
| AdminRecovery.Lockouts.TotpIsLocked | backend-rs/crates/api/src/admin_recovery.rs:82-91 | The list is pruned to the last fifteen minutes in place, and locked means five are left. |
| AdminRecovery.Lockouts.RecordTotpFailure | backend-rs/crates/api/src/admin_recovery.rs:93-99 | A failure is added for that email alone. |
| AdminRecovery.Lockouts.ClearTotpFailures | backend-rs/crates/api/src/admin_recovery.rs:101-105 | A success clears that email alone. |
| AdminRecovery.Lockouts.CreateSession | backend-rs/crates/api/src/admin_recovery.rs:392-435 | Signed in exactly with fewer than five failures under fifteen minutes old, an enabled operator and a right code; locked, disabled and refused exactly otherwise; a success clears the list, a refusal adds its stamp. |
| AdminRecovery.PrunedListIsPrunedHistory | backend-rs/crates/api/src/admin_recovery.rs:82-105 | Pruning the stored list gives what pruning the whole failure history would. |
| AdminRecovery.LockoutRemembersTheWindow | backend-rs/crates/api/src/admin_recovery.rs:82-105 | After any attempts the list is the recent failures since the last success, at most five, and no sixth failure falls within fifteen minutes of the one five before it. |
| AdminRecovery.RefundDesk.RefundOrder | backend-rs/crates/api/src/admin_recovery.rs:741-844 | The undisturbed request: replay, missing, conflict, over the cap, claimed by another, or refunded and audited, each exactly when. |
| Sessions.RevokeKeeps | backend-rs/crates/api/src/auth_routes.rs:560-570 | Revoking a family keeps the session invariant. |
| Sessions.RotateKeeps | backend-rs/crates/api/src/auth_routes.rs:576-600 | Marking a live token exchanged and adding its successor keeps one live token and one user in each family. |
| Sessions.NextKeeps | backend-rs/crates/api/src/auth_routes.rs:492-617 | Every sign-in, exchange and sign-out keeps the invariant and only adds marks. |
| Sessions.OneLiveTokenPerFamily | backend-rs/crates/api/src/auth_routes.rs:492-617 | In every run each family has one user and at most one unrotated, unrevoked token. |
| Sessions.ReuseKills | backend-rs/crates/auth/src/session.rs:176-190 | Presenting an exchanged token leaves the whole family revoked and every other family untouched. |
| Sessions.LogoutKills | backend-rs/crates/api/src/auth_routes.rs:492-520 | So does signing out. |
| Sessions.DeadFamiliesIssueNothing | backend-rs/crates/api/src/auth_routes.rs:522-617 | No step of any later run issues a token in a dead family. |
| Sessions.ATokenIsExchangedOnce | backend-rs/crates/auth/src/session.rs:176-190 | Presenting a token again, however much later in any run, is reported as reuse and kills its family. |
| Sessions.RotatesIff | backend-rs/crates/auth/src/session.rs:176-190 | A token is exchanged exactly when it is known, neither exchanged nor revoked, not expired, and the next hash is new; the next token is the same user's and family's, for thirty days. |
| Sessions.RefusedTokens | backend-rs/crates/auth/src/session.rs:176-190 | Reuse is reported exactly for an exchanged token, and a refusal without change exactly for one revoked or expired. |
| Sessions.ATokenLastsThirtyDays | backend-rs/crates/auth/src/session.rs:176-190 | In every run, a token issued at t is exchanged exactly before t + 30 days, while unmarked, for a new hash. |
| Sessions.SessionStore.StartSession | backend-rs/crates/api/src/auth_routes.rs:792-820 | A login adds one token in a fresh family. |
| Sessions.SessionStore.RefreshToken | backend-rs/crates/api/src/auth_routes.rs:522-617 | Ok, for the token's owner, exactly when the token is good and the next hash new; otherwise unauthorised and nothing issued; the whole new table. |
| Sessions.SessionStore.Unlock | backend-rs/crates/api/src/auth_routes.rs:443-490 | Ok exactly when the token is good, the next hash new and the PIN the owner's; a wrong PIN for an unrevoked token is named and changes nothing; any other case is unauthorised. |
| Sessions.SessionStore.SignOut | backend-rs/crates/api/src/auth_routes.rs:492-520 | Marks the unrevoked tokens of the presented token's family and no other row, or does nothing. |
| Otp.LastSent | backend-rs/crates/api/src/auth_routes.rs:73-82 | The cooldown looks at the latest send of the destination. |
| Otp.LiveAt | backend-rs/crates/api/src/auth_routes.rs:181-200 | Finds an unused challenge whenever there is one. |
| Otp.RequestKeeps | backend-rs/crates/api/src/auth_routes.rs:53-146 | A committed request keeps one live challenge, spaced sends and bounded guesses. |
| Otp.GuessKeeps | backend-rs/crates/api/src/auth_routes.rs:174-225 | So does a guess, right or wrong. |
| Otp.SendsAreRateLimited | backend-rs/crates/api/src/auth_routes.rs:60-122 | Committed sends in any window of T milliseconds number at most 1 + T / 60000. |
| Otp.GuessesAreBounded | backend-rs/crates/auth/src/otp.rs:75-100 | At most one live challenge; wrong guesses at most five for each challenge issued; each challenge succeeds at most once. |
| Otp.AGuessLeavesNoTraceIff | backend-rs/crates/api/src/auth_routes.rs:181-277 | For every guess: the rows stay as they were exactly when there is no live challenge, it is expired or out of attempts, or a right code meets an identity conflict; any other guess costs an attempt, and a right one leaves a challenge that refuses every guess. |
| Otp.ARequestIsAnsweredBy | backend-rs/crates/api/src/auth_routes.rs:60-146 | A request is throttled exactly within sixty seconds of the last send, with the seconds to wait; else it fails with its delivery, or leaves the used rows and one new challenge for ten minutes. |
| Otp.AGuessIsAnsweredBy | backend-rs/crates/api/src/auth_routes.rs:174-277 | Each answer exactly: right for the code of a live challenge in time with under five attempts and no conflict; conflict, expired, too many and incorrect with the attempts left. |
| Otp.CodesLastTenMinutes | backend-rs/crates/auth/src/otp.rs:75-100 | In every run, a guess signs in no later than ten minutes after the destination's last send. |
| Otp.UsedCodesStayUsed | backend-rs/crates/auth/src/otp.rs:75-100 | In every continuation, later sign-ins are never by a challenge already used. |
| Otp.OtpStore.RequestOtp | backend-rs/crates/api/src/auth_routes.rs:53-146 | Throttled, failed delivery or a new challenge in place of the unused one; other destinations untouched. |
| Otp.OtpStore.VerifyOtp | backend-rs/crates/api/src/auth_routes.rs:174-277 | The stored attempt and the answer for every guess; other destinations untouched. |
| Json.QuotedUnique | backend-rs/crates/api/src/admin_recovery.rs:153-175 | A quoted string's text ends at one place only, whatever follows it. |
| Json.PrintUnique | backend-rs/crates/api/src/admin_recovery.rs:175-176 | The printed text of a JSON value, whatever follows it, determines the value and what follows. |
| AuditChain.ActionsPrefixFree | backend-rs/crates/api/src/operator.rs:96-114 | No action name begins another, so the name ends where it must. |
| AuditChain.BodyUnique | backend-rs/crates/api/src/operator.rs:96-114 | Actor, action, target, before and after are each determined by their concatenation. |
| AuditChain.PayloadUnique | backend-rs/crates/api/src/operator.rs:96-114 | The hashed text determines the previous hash, or its absence, and every field. |
| AuditChain.PayloadLayout | backend-rs/crates/api/src/operator.rs:96-114 | Where each field stands in the hashed text. |
| AuditChain.HeadPinsTheLog | backend-rs/crates/api/src/admin_recovery.rs:167-205 | Logs with the same head are equal, or a concrete pair of different texts with one hash is returned. |
| AuditChain.AuditLog.InsertAudit | backend-rs/crates/api/src/admin_recovery.rs:167-205 | An append adds one row at the end and keeps the chain. |
| AuditChain.LastHashPinsTheTable | backend-rs/crates/api/src/admin_recovery.rs:167-205 | Tables with the same last hash are equal row for row, or a collision is returned. |
| Timestamps.FractionIsGroups | backend-rs/crates/api/src/activity_routes.rs:88 | The three printed widths of a fraction are groups of three digits with trailing zero groups dropped. |
| Timestamps.TextOrderIsTimeOrder | backend-rs/crates/api/src/activity_routes.rs:88-125 | For all instants of the years 0000 to 9999, comparing the printed texts is comparing the instants, and equal texts are equal instants. |
| Timestamps.EveryInstantIsAMoment | backend-rs/crates/api/src/activity_routes.rs:88 | Every nanosecond of those years has a calendar form, so none is left out. |
| ActivityFeed.ListActivity | backend-rs/crates/api/src/activity_routes.rs:64-132 | The feed is a permutation of what was queried, newest text first, ties in query order. |
| ActivityFeed.EveryRowIsShown | backend-rs/crates/api/src/activity_routes.rs:64-125 | Every row is shown with its id, kind, asset, status and time, and every item shows a row. |
| ActivityFeed.DescendingIsNewestFirst | backend-rs/crates/api/src/activity_routes.rs:125 | Rows are in order of time exactly when their items are in order of text. |
| ActivityFeed.FeedShowsTheNewest | backend-rs/crates/api/src/activity_routes.rs:69-125 | The first hundred timestamps of the feed are the newest hundred of everything the user did. |
| ActivityFeed.FeedIsCompleteIff | backend-rs/crates/api/src/activity_routes.rs:127-131 | Nothing is missing exactly when neither table holds more than a hundred rows of the user. |
| Catalogue.SalePriceNeverCutsTheMargin | backend-rs/crates/api/src/number_catalog.rs:131-140 | The price is the least multiple of ten that covers cost with margin and the floor. |
| Catalogue.ParsedRateIsStorableIff | backend-rs/crates/api/src/number_offers.rs:28-33 | A rate the parser accepts passes the row check as stored exactly from 0.00005 on. |
| Catalogue.OfferTables.ApplyProviderSkus | backend-rs/crates/api/src/number_offers.rs:77-204 | The sync executes exactly its script; it succeeds exactly when no row check fails and the sums fit, and says which of the two failed. |
| Catalogue.OfferTables.RecomputeOffers | backend-rs/crates/api/src/number_offers.rs:194-201 | Every offer gets the sum of its sources' stock and is active exactly when that is positive, or no offer changes when one sum is too wide for the column. |
| Catalogue.TakeOut | backend-rs/crates/api/src/number_offers.rs:194-201 | The sum of an offer's stock does not depend on the order of its sources. |
| CatalogueTheorems.LastSkuWins | backend-rs/crates/api/src/number_offers.rs:92-163 | After a sync a named source holds what the last line naming it says, wherever it pointed before. |
| CatalogueTheorems.UnseenSourcesAreZeroed | backend-rs/crates/api/src/number_offers.rs:165-191 | A source no line named keeps its offer, with stock zero exactly when asked and of this provider. |
| CatalogueTheorems.OtherProvidersUntouched | backend-rs/crates/api/src/number_offers.rs:93-191 | Sources of other providers are as they were. |
| CatalogueTheorems.QuantitiesAreSums | backend-rs/crates/api/src/number_offers.rs:194-201 | After a sync that succeeds every offer's quantity is the sum of its sources' stock, and it is active exactly when some source has stock. |
| CatalogueTheorems.SyncKeepsLinked | backend-rs/crates/api/src/number_offers.rs:108-163 | No source points at a missing offer, whether the sync succeeds or stops half way. |
| CatalogueTheorems.SyncIsIdempotent | backend-rs/crates/api/src/number_offers.rs:77-204 | The same sync a second time changes nothing, also one that stops or whose sums do not fit. |
| CatalogueTheorems.InterleavedSyncsAgree | backend-rs/crates/api/src/number_offers.rs:77-204 | All interleavings, statement by statement, of two providers' scripts, stopped or not, end in the same sources and offers, and, if both recompute, in the same quantities whenever the final sums fit. |
| CatalogueTheorems.SyncsCommute | backend-rs/crates/api/src/number_offers.rs:77-204 | Overlapping syncs of two providers, each complete or stopped, end with the sources and offers of one after the other, in either order; so do the quantities, unless one was stopped or the sums are too wide to write. |
| CatalogueTheorems.SyncSucceedsIff | backend-rs/migrations/0019_number_offers.sql:4-34 | A sync succeeds exactly when every line it takes passes the row checks as stored and the stock asked for each offer sums to 32 bits; then the tables are exactly what was asked. |
| CatalogueTheorems.ParsedRatesPassIff | backend-rs/crates/api/src/number_offers.rs:28-33 | Lines with parsed rates of a known provider pass exactly when no rate taken is under 0.00005. |
| CatalogueTheorems.AStoppedSyncLeavesAWrongQuantity | backend-rs/crates/api/src/number_offers.rs:108-132 | A concrete sync, of rates the parser accepts, that stops and leaves a quantity that is not the sum. |
| CatalogueTheorems.UnconvertiblePricesHideTheSupplier | backend-rs/crates/api/src/number_offers.rs:84-107 | Unconvertible prices are skipped line by line and a zeroing sync then hides the supplier. |
| PriceLines.ALineIsWrittenAsGiven | backend-rs/crates/api/src/number_offers.rs:92-163 | After a sync no row check stopped, the source with given texts holds, column by column, what the last accepted line with them says, rounded as the columns round, under the offer it prices. |
| PriceLines.AnUnnamedSourceIsKept | backend-rs/crates/api/src/number_offers.rs:165-191 | A source no accepted line names keeps its columns, its stock excepted, which goes to zero exactly when asked and of this provider. |
| PriceLines.ASyncCompletesIff | backend-rs/migrations/0019_number_offers.sql:4-34 | No row check stops a sync exactly when every accepted line, rounded, has a known provider, a rate in (0, 100], a price under 10^16 and a cost under 10^14 either way. |
| PriceLines.TheFigureIsTheLinesAccepted | backend-rs/crates/api/src/number_offers.rs:92-204 | The figure a sync reports is the number of lines it accepted. |
| PriceLines.ParserAgreesWithTheCheck | backend-rs/crates/api/src/number_offers.rs:28-33 | The parser keeps exactly the rates that would pass the check unrounded. |
| StoppedSyncs.AStoppedSyncLeaves | backend-rs/crates/api/src/number_offers.rs:92-163 | A stopped sync leaves the sources the lines before the stop ask for, nothing zeroed, and each offer shows the stock of the last line that asked for it, or what it showed before. |
| StoppedSyncs.StopsSomewhere | backend-rs/migrations/0019_number_offers.sql:4-34 | Every sync that stops does so at its first line that a row check refuses. |
| StoppedSyncs.AStoppedQuantityIsTheSumIff | backend-rs/crates/api/src/number_offers.rs:108-201 | After a stop, a quantity overwritten by a written line is the sum exactly when no other source of the offer has stock. |
| StoppedSyncs.OutOfStockKeepsTheSumIff | backend-rs/crates/api/src/number_routes.rs:838-852 | Zeroing a source that ran out leaves the quantity the sum exactly when it had no stock, or is not a source of the offer. |
| Aggregator.SqlScoreIsScoreIff | backend-rs/crates/api/src/number_aggregator.rs:33-47 | The query's score equals the specified one exactly for published rates from 0 to 100. |
| Aggregator.ScoreIsAFraction | backend-rs/crates/api/src/number_aggregator.rs:33-39 | The score lies in [0, 1], whatever the rate and the sign of the counters. |
| Aggregator.ScoreNearTheEvidence | backend-rs/crates/api/src/number_aggregator.rs:29-39 | The score is within W / (n + W) of delivered / attempts. |
| Aggregator.EvidenceMovesTheScore | backend-rs/crates/api/src/number_aggregator.rs:29-39 | A delivery raises the score and a miss lowers it, strictly unless it is already 1 or 0. |
| Aggregator.NeverDelivering | backend-rs/crates/api/src/number_aggregator.rs:12-39 | A source that never delivers is below s after exactly more than W(p/s - 1) orders. |
| Aggregator.DeliveredWithinAttempts | backend-rs/crates/api/src/number_aggregator.rs:61-71 | The query's filters never count more deliveries than attempts. |
| Aggregator.OneOrderCounts | backend-rs/crates/api/src/number_aggregator.rs:61-71 | An order counts exactly when bought from the source, numbered and under thirty days old, and as delivered when received too. |
| Aggregator.IsListedIff | backend-rs/crates/api/src/number_aggregator.rs:71-84 | A source is listed exactly when it sells the offer, has stock and a rate, is enabled and meets the cost floor. |
| Aggregator.StandsInOrder | backend-rs/crates/api/src/number_aggregator.rs:84-86 | Of two listed sources the better score stands first, then the cheaper, then the better stocked. |
| Aggregator.QueryRanksByScore | backend-rs/crates/api/src/number_aggregator.rs:49-88 | On rows of the table the query ranks by the specified score. |
| Aggregator.BetterScoreFirst | backend-rs/crates/api/src/number_aggregator.rs:84-86 | A better score stands first in every result, whatever the costs. |
| Aggregator.DeadSourceFallsBehind | backend-rs/crates/api/src/number_aggregator.rs:49-88 | However cheap, a source whose recent orders all missed stands behind a rival from exactly the threshold on. |
| Smspool.SelectMappedServices | backend-rs/crates/api/src/number_smspool.rs:366-409 | One entry for each slug with a candidate, its best, sorted by slug. |
| Smspool.BestIsFirstMinimum | backend-rs/crates/api/src/number_smspool.rs:391-398 | The loop's choice is the first lexicographic minimum of (name score, number), and exists whenever a row maps to the slug. |
| Smspool.BestNamesWin | backend-rs/crates/api/src/number_smspool.rs:352-398 | The row chosen has the exact name if any has, begins with the word if any does, and the lowest number among its equals; its id is from the upper-case field if there. |
| Smspool.ARowIsACandidateIff | backend-rs/crates/api/src/number_smspool.rs:366-392 | A row is a candidate exactly when its name maps and its id is not empty. |
| Smspool.NamesMapByWords | backend-rs/crates/api/src/number_smspool.rs:334-350 | A name maps to the slug of the first of thirteen words found in it, in any case. |
| Smspool.NumbersReadBack | backend-rs/crates/api/src/number_smspool.rs:385 | A printed number reads as itself, with or without a plus, and as the largest beyond 64 bits. |
| Smspool.SelectionIsUnique | backend-rs/crates/api/src/number_smspool.rs:400-408 | The sorted output is a function of what was chosen, not of the map's order. |
| Smspool.OrderDoesNotMatter | backend-rs/crates/api/src/number_smspool.rs:363-409 | Listing the rows in another order chooses the same services when, for each slug, the candidates that nothing beats carry one id. |
| Smspool.OrderIndependentIff | backend-rs/crates/api/src/number_smspool.rs:363-409 | For all lists: every permutation selects the same services exactly under that condition. |
| Smspool.SelectionExists | backend-rs/crates/api/src/number_smspool.rs:366-409 | Every list has a selection. |
| Smspool.DistinctNumbersAgree | backend-rs/crates/api/src/number_smspool.rs:385 | Distinct numeric ids are enough for it. |
| Smspool.TiesFollowTheOrder | backend-rs/crates/api/src/number_smspool.rs:391-398 | In any list, listing one or the other of two unbeaten candidates with different ids first leads to different selections. |
| GiftCards.Brands | backend-rs/crates/api/src/giftcard_routes.rs:82-119 | The loop that opens a group or extends the last one computes `Grouped`. |
| GiftCards.FlatteningIsTheRows | backend-rs/crates/api/src/giftcard_routes.rs:84-119 | Flattening the groups gives back the rate rows in order, each under its own brand. |
| GiftCards.RatesAreTheRows | backend-rs/crates/api/src/giftcard_routes.rs:101-119 | The rates listed are those of the rows with all six columns, in order, column by column. |
| GiftCards.HeadsAreBrands | backend-rs/crates/api/src/giftcard_routes.rs:88-103 | Each group is headed by the brand of a row, column by column. |
| GiftCards.NeighboursDiffer | backend-rs/crates/api/src/giftcard_routes.rs:88-99 | Neighbouring groups are of different brands. |
| GiftCards.EveryBrandIsListed | backend-rs/crates/api/src/giftcard_routes.rs:101-103 | Exactly the brands of the query are listed, also those without a rate. |
| GiftCards.EachBrandOnceIff | backend-rs/crates/api/src/giftcard_routes.rs:84-119 | Every brand appears exactly once exactly when its rows stand together. |
| GiftCards.BrandHoldsAllItsRates | backend-rs/crates/api/src/giftcard_routes.rs:104-118 | Then a brand's entry holds all its rates in row order. |
| GiftCards.UniqueNamesStandTogether | backend-rs/crates/api/src/giftcard_routes.rs:73-79 | Ordering by name keeps rows together when no two brands share a name. |
| GiftCards.SharedNamesSplitABrand | backend-rs/migrations/0005_giftcards.sql:12-27 | Two brands of one name can split, and one is listed twice. |
| Activate.NormaliseTwice | backend-rs/crates/api/src/number_activate.rs:352-358 | Normalising a phone twice changes nothing. |
| Activate.PhonesAreDigits | backend-rs/crates/api/src/number_activate.rs:352-358 | A text without digits stays as it is; any other becomes a plus and its digits. |
| Activate.ParseUndoesPrinting | backend-rs/crates/api/src/number_activate.rs:278-296 | An access line with a trimmed colon-free id and a phone with a digit parses to that id and '+' with the digits. |
| Activate.PrintedAgainReadsTheSame | backend-rs/crates/api/src/number_activate.rs:278-296 | What was parsed prints as a line that parses to the same. |
| Activate.PurchaseIff | backend-rs/crates/api/src/number_activate.rs:278-296 | A body is a purchase exactly when, trimmed, it is an access line with an id and a phone that are not blank. |
| Activate.AmbiguousIff | backend-rs/crates/api/src/number_activate.rs:278-320 | A body is refused exactly when it is a word of the closed list, and ambiguous exactly when it is neither a purchase nor a refusal. |

## Left out

- HTTP, JSON transport, the payment, SMS, mail and Google calls: their answers are step parameters.
- AES-GCM, SHA-256, Argon2, JWT and TOTP generation; a code's hash is the code, a TOTP check is a boolean.
- Weak isolation: each transaction is atomic; audit appends and one email's second-factor attempts are serial.
- The user interfaces, configuration, rate-limit buckets, the bank list, KYC, sell settings and phone masking.
- Payouts, crypto deposits, sells and withdrawals: they post through the same ledger but are not steps of a run.
- Purchase attempts across sources, supplier slots, back-off schedules and alerts: they move no money; a worker's claim, check and transition are separate steps with any timing.
- The order of a purchase's own writes beyond what its row records: a run may also assign a number before the source is noted.
- The raw-UUID reservation key and the order rows of the time before migration 0015.
- Overflow and rounding of numeric columns outside the catalogue tables, and the 96-bit range of decimal arithmetic there.
- Parsing of amounts and the missing-email error of `create_intent`; an amount comes with the scale it was written with.
- A poisoned lockout mutex and a missing or undecipherable second-factor secret; non-ASCII letters in email lower-casing and country-code upper-casing.
- Timestamps outside the years 0000 to 9999 and leap seconds; feed amounts, naira values and detail texts.
- Which of several products a supplier slug may match: the sync's lookup is a map.
- `parse_success_json`, `parse_status`, `skus_from_prices` and the other suppliers' list builders: what they produce is an arbitrary input of the sync and of the checks here, so no property depends on how they read a reply.
- Access tokens: short-lived and stateless, they play no part in a family.
- Aggregator.Score: divides exactly; the digits a decimal division keeps are not modelled.
- Catalogue.OfferTables.RecomputeOffers: the database computes the sums in one statement; the loops stand for it and any order gives the same result.
