# Verification of the money and entitlement protocol

The services of this repository share one PostgreSQL database and a job queue that may run a job twice,
stop it anywhere and run it again. Users pay with credits, with rewarded ads, or with money through a
payment provider. This project models the transactions that move those values, and proves what holds in
every state of every run, with transaction bodies interleaved statement by statement.

## How the model is built

Four layers describe the same system, each proved against the next.

1. **Statements** (`Statements.dfy`). Nineteen transactions, each the list of SQL statements that its
   service sends. A statement works on one row: a plain SELECT, an INSERT under a unique index, an UPDATE by
   key, or a conditional UPDATE. `ReadCommitted.dfy` interleaves them: a plain SELECT sees the last committed
   row or the transaction's own write; a statement that writes waits for the lock of its row, works on the
   row's last committed version, and holds the lock to the end; a conditional UPDATE that matches no
   committed row waits for nobody (section 13.2.1 of the PostgreSQL documentation). A transaction may roll
   back at any statement.
2. **Atomic transactions** (`Atomic.dfy`). What each transaction does to the committed database in one
   step. `Replay.dfy` and `Serial.dfy` prove that a transaction that ran interleaved commits exactly this, and
   `ReadCommitted.Refines` that every interleaved step is one atomic step, a step of a handler, or nothing.
3. **Handlers** (`Handlers.dfy`). Requests, runs of the reading processors with a program counter, failure
   callbacks and retries. Each statement outside a transaction is its own step, and a handler may stop
   between any two. Any number of them run at once, also for the same reading.
4. **Services** (`Tables.dfy`, `WalletService.dfy`, `ReadingsService.dfy`, `PaymentsService.dfy`,
   `RewardsService.dfy`, `OrdersService.dfy`). Classes whose methods update the tables in place, statement by
   statement as the source does, with a rollback where it throws. Each method's contract equates the tables
   after it with the atomic transaction, so that the theorems about runs are about this code.

`Outcomes.dfy` says the same without the definitions of those layers: of every transaction, the rows it asks for, the
rows and entries it leaves, and that no other row changes. The contracts of the services repeat it.

On the atomic system `LedgerLaws.dfy`, `PaymentLaws.dfy`, `EntitlementLaws.dfy` and `ReadingEngine.dfy` prove
that each transaction keeps the laws of money, payments, ads and readings. `Safety.dfy` carries them to every
state of every interleaved run. `Histories.dfy` finds the submit behind every reading that left DRAFT and the purchase
behind every order, and proves that what they asked for lasts. `FailedReadings.dfy` says when a FAILED reading has
had its credits back, and `WebhookDedup.dfy` compares runs with and without the check for webhook events already
received, where a delivery may stop, or its transaction abort, after its event row.

The other files are complete on their own: refresh tokens (`RefreshTokens.dfy`), the AI orchestrator
(`AiOrchestrator.dfy`), palm photographs (`PalmImages.dfy`), the daily card (`DailyCard.dfy`), the card draw
(`DrawEngine.dfy`), the order of the cards (`DrawOrder.dfy`), line breaking (`TextWrap.dfy`) and XML escaping
(`XmlEscape.dfy`).

Assumptions: every user who orders has a wallet; credit costs, package credits and the bonus are at least
0; identifiers are unique; passwords, signatures, AI answers, random numbers, clocks and provider statuses
are inputs of the step that uses them.

## What the proofs found

- A refresh checks its token and rotates it without looking again. Two that overlap leave two live tokens
  (`RefreshTokens.OverlappingRefreshesSplit`); a password change or a deletion in between is undone
  (`RefreshTokens.RotationUndoesSignOut`, `RefreshTokens.RotationOutlivesDeletion`). A rotation is safe exactly when
  the token is still live (`RefreshTokens.RotationIsSafeIff`). A login has the same gap between its check and its
  token (`RefreshTokens.IssueUndoesSignOut`), and is safe exactly when the account is still enabled with the
  password that was verified (`RefreshTokens.LateIssueIsSafeIff`).
- Uploads, confirmations, verdicts and submits of palm photographs check and write in separate statements. Two
  overlapping uploads exceed the slots (`PalmImages.OverlappingPresignsExceed`), and a stale verdict can empty
  a slot after the submit (`PalmImages.StaleVerdictEmptiesSlot`). For each of the four writes a lemma says exactly
  when it is safe.
- A webhook event is recorded before, and apart from, the payment transaction. If the delivery stops in between or
  that transaction aborts, the provider's repetition is skipped and a paid order is not credited by that event
  (`WebhookDedup.StoppedDeliveryIsLost`, `WebhookDedup.StoppedApprovalCosts`). The same happens to an event that
  arrives before its payment row (`WebhookDedup.EarlyDeliveryIsLost`). The confirmation on return can still credit it.
- A daily card request that finds no active deck has already spent the user's unlock
  (`DailyCard.SpentUnlockShowsIff`).
- The stored draws of a spread with two equal order indexes can come back in another order
  (`DrawOrder.ViewsKeepTheOrder`). The schema makes the position codes of a spread unique, not its order indexes.
- A comment of src/readings/readings.service.ts:449-455 says that a FAILED reading has had its credits back. The
  code keeps less. A job that stops after confirming the consumption and is then reported failed for good
  (`FailedReadings.FailedCanBeConsumed`), or a rejected job that overlaps with a delivered one
  (`FailedReadings.OverlapKeepsCredits`), leaves a FAILED reading whose credits are kept for the interpretation
  that is stored. FAILED comes with the credits exactly when the reservation was not CONSUMED before the
  release that precedes it: for the callback (`FailedReadings.CallbackReturnsIff`), a rejected job
  (`FailedReadings.AnsweredJobReturnsIff`), a job stopped anywhere (`FailedReadings.StoppedJobReturnsIff`), and in
  every run exactly when no consumption was ever recorded (`Safety.FailedIsReleasedIff`).
- A comment of prisma/schema.prisma:547-550 names three layers that make a purchase credit once. The table of
  webhook events is no part of what makes it once: `Safety.OrdersAreSafe` holds of runs with any repetitions. It
  is free exactly when the repetitions it skips would have found nothing to do (`WebhookDedup.DedupIsFreeIff`). The
  status of the payment stops one payment from being approved twice; the unique key of the entry, with the
  rollback, stops a second payment of the same order (`PaymentLaws.SecondApprovalFails`).

## Model

| member | source | states |
|---|---|---|
| `Replay.RerunStable` | src/wallet/wallet.service.ts:108-322 | While other transactions commit, an open transaction that reruns its statements on the new state writes the same rows, as long as the rows it has locked are untouched: row locks held to commit make the commit the serialization point. |
| `Replay.ExecStable` | src/wallet/wallet.service.ts:163-181 | One statement that ran once runs the same on any later state that agrees on the one row it locks; a row it only read may have moved forward. |
| `Serial.Serializable` | src/wallet/wallet.service.ts:108-322 | A transaction whose statements all ran commits exactly the atomic effect of its operation on the state it commits on. |
| `Serial.StopIsIdle` | src/wallet/wallet.service.ts:162-170 | A transaction that returns early, because its conditional update matched no row, is an atomic step with nothing to do. |
| `ReadCommitted.Refines` | src/readings/readings.service.ts:393-438 | Every statement, commit and rollback of the interleaved system keeps it consistent and is one step of the atomic system, or none. |
| `Atomic.EffectFramed` | prisma/schema.prisma:421-560 | Every transaction changes only its own rows and only moves them forward: settled reservations, paid orders, final payments, rewarded sessions and consumed offers stay so, and the ledger is append-only. |
| `LedgerLaws.MoneyKeeps` | src/wallet/wallet.service.ts:40-322 | Every transaction keeps: balances equal to the sum of their ledger and not negative, running balances, reservations paired with their entries, conservation. |
| `LedgerLaws.AppendLedger` | src/wallet/wallet.service.ts:116-152 | An entry that moves the wallet of its user by its amount keeps the ledger reconciled, indexed by idempotency key, and chained. |
| `Safety.RunsAreSafe` | src/readings/readings.service.ts:393-509 | Every state of every interleaved run, with crashes, reruns, retries and duplicate deliveries, satisfies all the laws at once. |
| `Safety.RunsMoveForward` | src/wallet/wallet.service.ts:160-222 | Between any two states of a run nothing final is undone and no ledger entry changes. |
| `Safety.MoneyIsSafe` | src/wallet/wallet.service.ts:40-322 | At every moment of every run: no balance is negative, each equals the sum of its ledger amounts, balance plus ACTIVE and CONSUMED reservations equals BONUS, PURCHASE and ADJUSTMENT entries, and `balanceAfter` chains in commit order for all entries but CONSUMPTION. |
| `Safety.ReadingsAreSafe` | src/jobs/reading-processing/tarot-reading.processor.ts:92-104 | A reading has one RESERVATION entry exactly when it has left DRAFT and one settling entry exactly when its reservation is closed; its entries sum to minus what it holds; COMPLETED or FAILED means settled; CONSUMED, or COMPLETED, means a stored interpretation that passed every check. |
| `Safety.RetriesNeverCharge` | src/readings/readings.service.ts:482-509 | However many jobs, callbacks and retries follow a submit, the entries of the reading never sum to less, and its RESERVATION entry stays the only one. |
| `Histories.ReadingsWereSubmitted` | src/readings/readings.service.ts:393-438 | Every reading that has left DRAFT in a run was submitted at an earlier step by its owner, whose submit met its conditions; it still has the cards that the submit drew, its owner, and a reservation and RESERVATION entry of zero when an ad unlock paid and of the service's cost otherwise. |
| `Histories.SubmittedStays` | src/readings/readings.service.ts:413-431 | From the submit on, in every later state, whatever jobs, callbacks and retries follow, the cards, the owner and the reserved amount are those of the submit. |
| `Histories.OnlySubmitsLeaveDraft` | src/readings/readings.service.ts:303-447 | Of all transactions that a handler sends, only a submit of the reading takes it out of DRAFT. |
| `Safety.OrdersAreSafe` | src/payments/payments.service.ts:226-258 | PAID iff exactly one payment is APPROVED, iff exactly one PURCHASE entry exists; the entry is worth the order's credits and goes to its user; PAID is absorbing. |
| `PaymentLaws.PaidOnce` | src/admin/admin-metrics.service.ts:50-54 | The reported revenue, the sum of PAID order prices, equals the sum of the APPROVED payment amounts; and for one order, PAID, one approval and the PURCHASE entry come together. |
| `PaymentLaws.SecondApprovalFails` | src/wallet/wallet.service.ts:230-253 | Approving another payment of a paid order rolls back whole. |
| `PaymentLaws.PayKeeps` | src/payments/payments.service.ts:226-282 | Every transaction keeps the laws of payments, with any number of payments per order, in any order of delivery. |
| `Safety.PricesAreFrozen` | src/orders/orders.service.ts:18-70 | In every run an order keeps the price, credits and discount it was created with: the list price, or for a flash offer four fifths of it within half a cent. |
| `Histories.OrdersWereBought` | src/orders/orders.service.ts:21-73 | Every order of a run was bought at an earlier step, and has for ever the buyer, credits, currency and list price of the package it was bought as, at that price or at four fifths of it within half a cent. |
| `Histories.PurchasesAreCredited` | src/payments/payments.service.ts:226-258 | A paid order has one PURCHASE entry, for the user who bought it, of exactly the credits that its package offered when it was bought. |
| `Safety.AdsAreSafe` | src/rewards/rewards.service.ts:188-323 | Per user in every run: 2 × offers + counter = completed flash sessions with the counter below 2; for the other types required × unlocks + counter ≤ completed sessions; one reward per completed session; each discounted order matches one consumed offer of its user and package; 2 × discounted orders ≤ completed flash sessions. |
| `EntitlementLaws.DiscountsAreEarned` | src/orders/orders.service.ts:35-57 | No offer discounts two orders, so discounted orders are at most half of the completed flash ads. |
| `EntitlementLaws.AdsKeeps` | src/rewards/rewards.service.ts:121-135 | Every transaction that commits keeps the laws of ads: sessions and rewards, counters and offers, discounted orders and consumed offers. |
| `ReadingEngine.EngineKeeps` | src/jobs/reading-processing/reading-processing.consumer.ts:39-71 | Every step of the handlers (arrivals, commits, enqueues, crashes) keeps what each handler relies on and what each reading promises. |
| `ReadingEngine.CommitServed` | src/jobs/reading-processing/palm-reading.processor.ts:65-85 | A transaction that a handler commits leaves its reading, and every other, settled before terminal and paid only for a delivery. |
| `Outcomes.SubmitSays` | src/readings/readings.service.ts:393-438 | A submit commits exactly when the reading is the user's, the payer can pay and nothing was submitted before; then the reading is PENDING, the cards are stored as drawn, five ads or else the cost are taken, the reservation and its entry say which, and no other row changes. |
| `Outcomes.AdjustSays` | src/wallet/wallet.service.ts:278-313 | An adjustment commits exactly for a wallet whose balance would not turn negative and an unused id; the balance moves by the signed amount, which the entry and the audit row record with the new balance. |
| `Outcomes.OpenSays` | src/wallet/wallet.service.ts:40-62 | A new wallet is worth its bonus, which is one entry or none. |
| `Outcomes.ReserveSays` | src/wallet/wallet.service.ts:108-153 | The amount leaves the wallet for an ACTIVE reservation and its entry, exactly when the balance covers it and the reading has none. |
| `Outcomes.ConsumeSays` | src/wallet/wallet.service.ts:160-188 | An ACTIVE reservation becomes CONSUMED and moves no credits. |
| `Outcomes.ReturnSays` | src/wallet/wallet.service.ts:193-222 | An ACTIVE reservation becomes RELEASED and its whole amount returns to the wallet it came from. |
| `Outcomes.StatusSays` | src/jobs/reading-processing/tarot-reading.processor.ts:30-105 | Which status the writes of jobs, callbacks and retries give, from which status, and that they change nothing else. |
| `Outcomes.InsertSays` | src/readings/readings.service.ts:98-119 | A new reading is a DRAFT of its user; a stored answer is a delivery exactly when it passed all five checks; a new ad session is open. |
| `Outcomes.PurchaseSays` | src/orders/orders.service.ts:24-70 | An order freezes code, credits, currency and price of its package, unpaid; with an offer that is still there it is discounted to the nearest cent and the offer consumed. |
| `Outcomes.CheckoutSays` | src/payments/payments.service.ts:53-92 | A payment is of the user's own order, at its frozen price. |
| `Outcomes.ApproveSays` | src/payments/payments.service.ts:226-258 | A pending payment becomes Approved, its order Paid and the buyer richer by the order's credits, or nothing happens; which, exactly when. |
| `Outcomes.TerminateSays` | src/payments/payments.service.ts:260-282 | A pending payment takes the final status, and its order is cancelled exactly when it was still unpaid. |
| `Outcomes.SpendSays` | src/rewards/rewards.service.ts:121-135 | One unlock costs one ad for the daily card, five for a reading: a counter that holds them is emptied, any other stays. |
| `Outcomes.CompleteSays` | src/rewards/rewards.service.ts:230-296 | An open session is completed and rewarded once; its counter grows by one, and the second flash ad empties it and grants 20% off BASICO_FUEGO. |
| `Outcomes.ExpireSays` | src/rewards/rewards.service.ts:216-226 | Only an open session expires. |
| `Outcomes.TransactionsSay` | src/wallet/wallet.service.ts:160-322 | The same of the transactions as the interleaved runs commit them: adjustments, settlements, checkouts, payments, unlocks and completed ads. |
| `WalletService.WalletService.CreateWalletWithBonus` | src/wallet/wallet.service.ts:40-62 | A new wallet holds the bonus, and the ledger its BONUS entry when it is not zero; a second wallet changes nothing. |
| `WalletService.WalletService.ReserveCreditsForReading` | src/wallet/wallet.service.ts:108-153 | Debit, reservation and entry together; and which exception is thrown, exactly when: no wallet, not enough credits, already submitted. |
| `WalletService.WalletService.ConfirmConsumption` | src/wallet/wallet.service.ts:160-188 | An ACTIVE reservation becomes CONSUMED with one entry of zero credits; otherwise nothing changes. |
| `WalletService.WalletService.ReleaseReservation` | src/wallet/wallet.service.ts:193-222 | An ACTIVE reservation becomes RELEASED and its amount returns with one entry; otherwise nothing changes. |
| `WalletService.WalletService.CreditPurchase` | src/wallet/wallet.service.ts:230-253 | The wallet gains the credits once per order: a second PURCHASE entry of the order fails. |
| `WalletService.WalletService.AdjustCredits` | src/wallet/wallet.service.ts:261-322 | It succeeds exactly for an amount that is not zero, an existing wallet and a balance that stays at least zero: the balance becomes the old one plus the signed amount, and one entry and one audit row carry the amount and the new balance. Otherwise nothing changes. |
| `ReadingsService.ReadingsService.Submit` | src/readings/readings.service.ts:303-447 | A submit is accepted exactly for a ready draft of the user that can be paid: five ads pay for TAROT_THREE if they are there, credits otherwise. It leaves the reading PENDING with the cards that were drawn (none for a palm), its reservation, and the wallet lower by it; a repeated submit is recognised; a failed one changes no row, so that its unlock is given back; only a success is enqueued. |
| `ReadingsService.ReadingsService.SubmitDraft` | src/readings/readings.service.ts:394-438 | The transaction of a submit commits or rolls back as the atomic submit does; a second reservation is the sign of a repeated submit. |
| `ReadingsService.SubmitSays` | src/readings/readings.service.ts:63-66 | Which readings ads may pay for, when they do, and which have no cards: the submit of the services against its effect on the rows. |
| `ReadingsService.ReadingsService.PerformRetry` | src/readings/readings.service.ts:482-509 | A FAILED reading goes back to PENDING and is enqueued; wallet and reservation are not touched. |
| `ReadingsService.ReadingProcessor.ProcessReading` | src/jobs/reading-processing/tarot-reading.processor.ts:30-105 | A run stopped after any number of transactions leaves the tables, and the program counter, as that many steps of the job do. |
| `ReadingsService.ReadingProcessor.FinishReading` | src/jobs/reading-processing/palm-reading.processor.ts:73-85 | The credits are settled before the status is written, at every stopping point. |
| `ReadingsService.ReadingProcessor.OnFailed` | src/jobs/reading-processing/reading-processing.consumer.ts:48-71 | Nothing before the last attempt; then the release, then FAILED unless COMPLETED, stoppable in between. |
| `ReadingsService.RunsAreMoves` | src/jobs/reading-processing/reading-processing.consumer.ts:39-71 | Every prefix of a job or of a failure callback is a path of the system's steps, so the theorems about runs hold wherever it stops. |
| `FailedReadings.SettlementIsFinal` | src/wallet/wallet.service.ts:160-222 | The first settlement of a reservation decides for ever, whatever commits between it and any later write: the credits are returned iff the first to find it ACTIVE was a release. |
| `FailedReadings.CallbackReturnsIff` | src/jobs/reading-processing/reading-processing.consumer.ts:48-71 | The failure callback of a reading that is not COMPLETED ends FAILED, with the credits returned iff the reservation was not CONSUMED before the call, and kept iff it was. |
| `FailedReadings.AnsweredJobReturnsIff` | src/jobs/reading-processing/tarot-reading.processor.ts:92-104 | From its answer on, a job writes FAILED iff the answer was rejected, and the credits are then returned iff they were not CONSUMED before; a delivered one leaves them returned iff they were already. |
| `FailedReadings.StoppedJobReturnsIff` | src/jobs/reading-processing/palm-reading.processor.ts:26-87 | A job that stops after any number of transactions, then its callback: FAILED unless a delivered answer was carried through; credits kept by a FAILED reading iff it stopped right after confirming a delivered answer; returned in every other FAILED case. |
| `FailedReadings.FailedCanBeConsumed` | src/jobs/reading-processing/tarot-reading.processor.ts:92-104 | The failing input: a job that stops after confirming the consumption, and is then reported failed for good, leaves a FAILED reading with a CONSUMED reservation and its stored interpretation. |
| `FailedReadings.OverlapKeepsCredits` | src/jobs/reading-processing/tarot-reading.processor.ts:92-104 | The other failing input: two jobs overlap and neither stops; the delivered one confirms, the rejected one finds nothing to release and writes FAILED last. |
| `Safety.FailedIsReleasedIff` | src/readings/readings.service.ts:449-455 | In every run a FAILED reading has had its credits back iff no consumption was ever recorded for it; otherwise they pay for a stored delivery. |
| `Safety.RunsAreSettleable` | src/wallet/wallet.service.ts:160-222 | In every run a reading that has left DRAFT has what its settlements need: neither can roll back. |
| `PaymentsService.PaymentsService.CreateCheckoutIntent` | src/payments/payments.service.ts:53-92 | A pending order of the user gets one more pending payment at its frozen price; otherwise nothing changes. |
| `PaymentsService.PaymentsService.ApprovePayment` | src/payments/payments.service.ts:226-258 | Payment, order and wallet together or not at all; a payment that is not pending changes nothing. |
| `PaymentsService.PaymentsService.MarkPaymentTerminal` | src/payments/payments.service.ts:260-282 | A pending payment takes its final status, and its order is cancelled if it was still pending. |
| `PaymentsService.PaymentsService.HandleWebhook` | src/payments/payments.service.ts:162-224 | A first delivery records its event, on its own, and then follows the provider's status unless it stops or its transaction aborts; a repeated one is skipped. For a pending payment of that amount and currency, PENDING changes nothing, APPROVED pays the order and credits the buyer, DECLINED and VOIDED decline it and ERROR fails it, cancelling an order that is unpaid; for anything else nothing changes. |
| `PaymentsService.PaymentsService.Resolve` | src/payments/payments.service.ts:204-223 | The check of amount and currency, then by status: nothing, approval, or the final status with the cancellation of an unpaid order. |
| `PaymentsService.ProcessFollows` | src/payments/payments.service.ts:34-40 | The provider's five statuses, row by row: what each leaves of the payment, its order and the wallet. |
| `PaymentsService.PaymentsService.ConfirmFromReturn` | src/payments/payments.service.ts:103-157 | The confirmation on return processes the provider's answer for the user's latest pending payment as a delivery would, and nothing else. |
| `WebhookDedup.SkipIsFreeIff` | src/payments/payments.service.ts:196-282 | The exact guard of one skipped repetition: settling the event would change nothing iff its payment is missing, of another amount or currency, or no longer pending, or the status is not final, or it is an approval whose order or wallet is missing or whose PURCHASE entry exists. |
| `WebhookDedup.DedupIsFreeIff` | src/payments/payments.service.ts:168-224 | For every trace of deliveries, with any duplicates, overlaps, crashes after the event row and aborted payment transactions, among any other transactions: the tables are the same at every moment with and without the check for duplicates, iff each repetition that it skips would have found nothing to do. |
| `WebhookDedup.DedupIsFreeInTheEnd` | src/payments/payments.service.ts:168-224 | The final tables are the same with and without the check when each skipped repetition had nothing to do, or overlapped with the delivery that recorded the event and is settled after it with no table changed in between. |
| `WebhookDedup.ProcessIsIdempotent` | src/payments/payments.service.ts:226-282 | Settling an event twice in a row is settling it once. |
| `WebhookDedup.DedupDecidesNothing` | src/payments/payments.service.ts:168-282 | The check decides nothing, at any moment, when no recorded event is dropped: before each skipped repetition is settled, the delivery that recorded the event was carried through after its payment row existed, or the event was spent by other means. |
| `WebhookDedup.SettledIsSpent` | src/payments/payments.service.ts:226-282 | Once the payment transaction of a deliverable event has run, to its commit or to its refusal by the unique key of the purchase, delivering the event again can change nothing. |
| `WebhookDedup.StoppedDeliveryIsLost` | src/payments/payments.service.ts:170-187 | A delivery that stops after its event row, or whose payment transaction aborts, is never made good by its repetition: with the check the tables stay as they are, without it they do what the event says. |
| `WebhookDedup.StoppedApprovalCosts` | src/payments/payments.service.ts:170-231 | A concrete order: its one approval stops after the event row, is repeated, and the buyer gets none of the ten credits. |
| `WebhookDedup.DeliveryIsTwoActions` | src/payments/payments.service.ts:162-224 | What `handleWebhook` does is to record the event, and then to settle it or to drop it. |
| `WebhookDedup.EarlyDeliveryIsLost` | src/payments/payments.service.ts:196-202 | An event delivered before its payment row exists is lost in the same way, carried through or not, exactly when it would have had something to do once the row exists. |
| `RewardsService.RewardsService.CreateSession` | src/rewards/rewards.service.ts:64-91 | A session is opened unless the day's flash offers are used up. |
| `RewardsService.RewardsService.TryConsumeUnlock` | src/rewards/rewards.service.ts:121-135 | A full counter is reset and its unlock taken in one conditional update; otherwise nothing changes. |
| `RewardsService.RewardsService.RegisterCompletedSession` | src/rewards/rewards.service.ts:188-323 | A completion callback rewards an open session once; which reason each refused callback gets; a late one expires its session; a refused insert rolls everything back. |
| `RewardsService.RegisterSays` | src/rewards/rewards.service.ts:188-323 | Each answer to a callback, its exact condition, and the rows it leaves: a late session expires and is not rewarded. |
| `RewardsService.RewardsService.RewardOnce` | src/rewards/rewards.service.ts:230-301 | Session, reward, counter and offer change together or not at all. |
| `RewardsService.RewardsService.BumpProgress` | src/rewards/rewards.service.ts:253-296 | The counter grows by one; the flash counter that reaches its target is reset and grants one offer. |
| `OrdersService.OrdersService.Create` | src/orders/orders.service.ts:21-73 | The order is of the user and the package, unpaid, with the package's credits, currency and list price; an offer that is still unconsumed discounts it and is consumed with it, together or not at all; an offer consumed by then gives no discount. |
| `OrdersService.PriceIsRounded` | src/orders/orders.service.ts:53-55 | For a discount d from 0 to 100 the frozen price p' of list price p satisfies 0 ≤ p' ≤ p and -50 < 100·p' − p·(100−d) ≤ 50, and is the only integer that does. |
| `RefreshTokens.AuthService.RefreshSession` | src/auth/auth.service.ts:133-170 | A live token of an enabled account is rotated; a revoked one signs its user out everywhere; anything else changes nothing. |
| `RefreshTokens.AuthService.RotateTokens` | src/auth/auth.service.ts:395-417 | The new token is created and the old one revoked and linked to it. |
| `RefreshTokens.AuthService.RegisterUser` | src/auth/auth.service.ts:63-109 | An unknown user gets an enabled account and one live token; a known one changes nothing. |
| `RefreshTokens.AuthService.RevokeSessions` | src/auth/auth.service.ts:156-159 | Token by token: every token of the user becomes revoked, and every other token is equal to before. |
| `RefreshTokens.AuthService.LogIn` | src/auth/auth.service.ts:111-131 | A token is issued exactly for a valid password of an enabled account. |
| `RefreshTokens.AuthService.LogOut` | src/auth/auth.service.ts:172-182 | The presented token is revoked, and no other token changes. |
| `RefreshTokens.AuthService.ResetUserPassword` | src/auth/auth.service.ts:275-316 | A valid link of an enabled account closes all of its sessions. |
| `RefreshTokens.AuthService.ChangeUserPassword` | src/auth/auth.service.ts:318-350 | A valid password closes all sessions, the current one included. |
| `RefreshTokens.AuthService.SoftDeleteAndRevokeSessions` | src/users/users.service.ts:78-89 | The account is deleted and all of its sessions closed together. |
| `RefreshTokens.RunsKeepChains` | src/auth/auth.service.ts:133-417 | With each refresh as one step, in every run a session has at most one live token. |
| `RefreshTokens.FollowIsTheSession` | src/auth/auth.service.ts:401-414 | Following `replacedBy` from a token visits exactly the later tokens of its session, in order of creation, without a cycle, and only the last can be live. |
| `RefreshTokens.ChainsAreDisjoint` | prisma/schema.prisma:66-79 | No token replaces two, and no two live tokens share a session. |
| `RefreshTokens.ReuseIsDetected` | src/auth/auth.service.ts:153-161 | A rotated token that comes back after any further requests yields no session and leaves its user with none (the rule of section 4.14.2 of RFC 9700). |
| `RefreshTokens.LiveIff` | src/auth/auth.service.ts:111-350 | One request decides about every token of every user: it is live afterwards iff it was just issued, or was live and is neither rotated, logged out, nor its owner signed out everywhere. |
| `RefreshTokens.LiveUntilEnded` | src/auth/auth.service.ts:133-350 | Over any requests a live token stays live, whatever other users do, exactly until its own rotation or logout or a reused token, new password or deletion of its owner. |
| `RefreshTokens.LogoutIsFinal` | src/auth/auth.service.ts:172-182 | A token that was logged out is never live again. |
| `RefreshTokens.SignedOutUntilLogin` | src/auth/auth.service.ts:301-349 | After a reused token, a new password or a deletion the user has no live token until the next login, and tokens from before stay useless for ever. |
| `RefreshTokens.DeletedStaysOut` | src/users/users.service.ts:78-89 | A deleted account never has a live token again, whatever requests follow. |
| `RefreshTokens.RotationIsSafeIff` | src/auth/auth.service.ts:144-168 | With check and rotation apart, a rotation keeps every session at one live token and opens no closed session exactly when the token is still live: the guard that a conditional update would test. |
| `RefreshTokens.RotationUndoesSignOut` | src/auth/auth.service.ts:401-414 | A password change, reset, reuse or deletion between check and rotation: the user just signed out everywhere has a live token. |
| `RefreshTokens.RotationOutlivesDeletion` | src/users/users.service.ts:78-89 | After a deletion in between, a deleted account has a live token. |
| `RefreshTokens.LateIssueIsSafeIff` | src/auth/auth.service.ts:111-131 | With check and issue apart and any requests in between, a login leaves the tokens consistent and undoes no sign-out by a new password or a deletion, exactly when the account is still enabled with the password that was verified. |
| `RefreshTokens.GuardRemembers` | src/auth/auth.service.ts:275-350 | After any requests, the account is still enabled with the verified password exactly when none of them changed the password, reset it or deleted the account. |
| `RefreshTokens.IssueUndoesSignOut` | src/auth/auth.service.ts:121-130 | The failing input: a new password or a deletion between check and issue signs the user out everywhere, and the login with the old credentials gives the user a live token. |
| `RefreshTokens.LateRevokeIsSafe` | src/auth/auth.service.ts:311-314 | Revoking all tokens of a user is safe whenever it runs. |
| `RefreshTokens.OverlappingRefreshesSplit` | src/auth/auth.service.ts:144-168 | Two refreshes of any acceptable token that both passed the check leave two live tokens in its session. |
| `AiOrchestrator.AiOrchestratorService.Execute` | src/ai/ai-orchestrator.service.ts:50-130 | A call that returns wrote exactly one audit row. A risky question is blocked without asking the provider; otherwise the provider is asked until it answers, and the row says which check the answer failed, or COMPLETED; three failures leave the third error. |
| `AiOrchestrator.AiOrchestratorService.HandleResponse` | src/ai/ai-orchestrator.service.ts:132-200 | COMPLETED, with output, exactly for content that parses, meets the schema and is not prohibited. |
| `AiOrchestrator.DeliveredIff` | src/ai/ai-orchestrator.service.ts:70-200 | What the reading engine calls a delivery: a safe question whose first reply that is no exception passes every check. |
| `AiOrchestrator.RetriesAreInvisible` | src/ai/ai-orchestrator.service.ts:89-110 | Failures before the first answer, and replies after it, do not change the outcome. |
| `PalmImages.PalmReading.PresignImage` | src/readings/readings.service.ts:182-218 | A slot is given exactly to a DRAFT palm reading whose images that are not INVALID are fewer than its slots. |
| `PalmImages.PalmReading.ConfirmImage` | src/readings/readings.service.ts:220-301 | An UPLOADED image of a draft goes to review, and is enqueued, or becomes INVALID. |
| `PalmImages.PalmReading.ValidateImage` | src/jobs/image-analysis/palm-image-validation.processor.ts:32-85 | Only an image under review is judged: VALID for a completed call that finds it legible, INVALID otherwise. |
| `PalmImages.PalmReading.OnFailed` | src/jobs/image-analysis/palm-image-validation.processor.ts:87-102 | After the last attempt an image that is not VALID becomes INVALID. |
| `PalmImages.PalmReading.SubmitPalmReading` | src/readings/readings.service.ts:316-357 | A draft leaves DRAFT only with as many VALID images as slots. |
| `PalmImages.SlotsAreNeverExceeded` | src/readings/palm-reading.constants.ts:4-15 | In every run the images that are not INVALID never exceed the slots of the service, one for PALM_BASIC and two for PALM_COMPLETE, and out of DRAFT the VALID ones fill them. |
| `PalmImages.SubmittedImagesStay` | src/readings/readings.service.ts:316-328 | A palm reading out of DRAFT has exactly one VALID image per slot and none waiting, and the same ones for ever after. |
| `PalmImages.ImagesAreJudged` | src/jobs/image-analysis/palm-image-validation.processor.ts:32-85 | In every run an image is VALID only after its upload, its confirmation and a verdict that found it legible, in this order. |
| `PalmImages.WriteIsSafeIff` | src/readings/readings.service.ts:198-292 | For any write of an image, whatever was checked before it: it keeps the slots exactly when, in a draft, it takes no slot that is not free and, after the submit, it leaves the slots as they are. |
| `PalmImages.LatePresignIsSafeIff` | src/readings/readings.service.ts:198-215 | With count and creation apart, a new image is safe exactly when a slot of a draft is free when its row is created. |
| `PalmImages.LateConfirmIsSafeIff` | src/readings/readings.service.ts:227-292 | With check and write apart, a confirmation is safe exactly when, in a draft, it gives no rejected image a taken slot and, after the submit, it rejects a rejected one. |
| `PalmImages.LateVerdictIsSafeIff` | src/jobs/image-analysis/palm-image-validation.processor.ts:42-85 | With check and verdict apart, a verdict is safe exactly when it changes nothing after the submit and revives no rejected image into a taken slot before. |
| `PalmImages.LateSubmitIsSafeIff` | src/readings/readings.service.ts:321-342 | With count and transaction apart, leaving DRAFT is safe exactly when the VALID images still fill the slots. |
| `PalmImages.OverlappingPresignsExceed` | src/readings/readings.service.ts:198-215 | Two overlapping requests for the one slot of PALM_BASIC take it twice. |
| `PalmImages.StaleVerdictEmptiesSlot` | src/jobs/image-analysis/palm-image-validation.processor.ts:42-85 | A verdict of a stalled run after the submit leaves the reading without its photograph. |
| `DailyCard.DailyCardService.GetTodaysCard` | src/daily-card/daily-card.service.ts:29-64 | By cases: a cached request repeats its answer and changes nothing; an unknown user gets none; the first five days are free; after them an unlock is taken or the card is locked at one ad; the card is the one at the digest's head in the deck, turned by its fifth byte, and cached for a day. |
| `DailyCard.VisitSays` | src/daily-card/daily-card.service.ts:29-64 | The same of the requests in the runs below. |
| `DailyCard.FreeDays` | src/daily-card/daily-card.service.ts:73-81 | The five free days end exactly five times 86400000 milliseconds after the account was created. |
| `DailyCard.SameCardAllDay` | src/daily-card/daily-card.constants.ts:1-10 | With any other requests and transactions in between, a card shown on a UTC day is shown for the rest of that day, and the rest of the day takes no unlock. |
| `DailyCard.OneUnlockADay` | src/daily-card/daily-card.service.ts:40-64 | A user spends at most one unlock per UTC day, unless a request that spent one found no deck. |
| `DailyCard.SpentUnlockShowsIff` | src/daily-card/daily-card.service.ts:41-62 | A spent unlock shows and keeps its card exactly when there is a deck; without one it is gone. |
| `DailyCard.LatePaymentIsSafeIff` | src/daily-card/daily-card.service.ts:36-62 | With the look at the cache and the payment apart, a request that missed the cache pays again exactly when another unlock is there when it pays, whatever the cache holds by then. |
| `DailyCard.OverlapPaysOnce` | src/daily-card/daily-card.service.ts:42-59 | Two requests that overlap pay twice only if an ad was completed between their payments. |
| `DailyCard.LastCardStays` | src/daily-card/daily-card.service.ts:61-63 | Of two overlapping requests, the day shows the card of the one that writes the cache last; the two show the same card exactly when they built the same. |
| `DrawEngine.Draw` | src/tarot/draw-engine.service.ts:14-38 | Each position gets one card, in order: the card at the random index of a pool that starts as the deck and loses each card drawn, reversed when the coin says so; which deck or spread is refused. |
| `DrawEngine.PoolsShrink` | src/tarot/draw-engine.service.ts:26-31 | The picks of a choice vector are the cards at its indexes of the shrinking pools. |
| `DrawEngine.EveryHandIsDrawn` | src/tarot/draw-engine.service.ts:26-37 | Every sequence of distinct cards of the deck is drawn by the choice vector that `Indexes` computes. |
| `DrawEngine.EachHandIsDrawnOnce` | src/tarot/draw-engine.service.ts:26-37 | And by no other: choice vectors and hands correspond one to one. |
| `DrawEngine.NoCardIsLost` | src/tarot/draw-engine.service.ts:26-31 | Drawn cards plus the remaining pool are a permutation of the deck. |
| `DrawOrder.DrawSpread` | src/readings/readings.service.ts:380-391 | The draw for a spread of distinct order indexes is given back by the sort from any stored order. |
| `DrawOrder.ViewsKeepTheOrder` | src/readings/reading.types.ts:119-146 | The prompt, the detail and the public summary show the cards in the order drawn, whatever order they are stored in, exactly when the order indexes are distinct. |
| `DrawOrder.OrderSurvivesIff` | src/jobs/reading-processing/tarot-reading.processor.ts:68-75 | For any draws and ranks: the sort gives the draws back from every stored order exactly when they ascend and no two different draws rank alike. |
| `DrawOrder.SortSorts` | src/sharing/sharing.service.ts:185-193 | The sort of a copy is an ascending permutation. |
| `TextWrap.WrapText` | src/jobs/share-image/share-image.renderer.ts:57-72 | For every text, each line fits or is a single word, and only spaces are lost. When no word is empty, joining the lines with spaces gives the text back and no other break into fitting or single-word lines uses fewer. A leading space is always lost. |
| `TextWrap.SplitOfJoin` | src/jobs/share-image/share-image.renderer.ts:58 | Splitting at spaces is the inverse of joining with them. |
| `XmlEscape.EscapeIsSinglePass` | src/jobs/share-image/share-image.renderer.ts:45-52 | The five chained replacements equal one pass with a character map, on every text. |
| `XmlEscape.FiveEntities` | src/jobs/share-image/share-image.renderer.ts:45-52 | Each of the five characters becomes its own entity. |
| `XmlEscape.EscapeIsSafe` | src/jobs/share-image/share-image.renderer.ts:45-52 | The result holds no raw `<`, `>`, `"` or `'`. |
| `XmlEscape.DecodeOfEscape` | src/jobs/share-image/share-image.renderer.ts:45-52 | Decoding the predefined entities (section 4.6 of XML 1.0) gives the text back. |
| `XmlEscape.OrderMatters` | src/jobs/share-image/share-image.renderer.ts:46-47 | Replacing `&` last would escape the entities themselves. |

## Left out

- Identifiers are natural numbers that stand for UUIDs; columns that no theorem needs are not modelled.
- The 32-bit range of balances and prices is not modelled: a write beyond it aborts its transaction, which is
  a rollback here. The floating-point product in the rounding of a price is taken as exact.
- Deadlocks, foreign keys and statement timeouts appear only as the rollbacks they cause. An early return
  commits on the spot, and the SELECT of a reservation that its transaction has just closed is part of the
  statement that closes it.
- Time appears as an input: whether a session or an offer has expired, how many flash ads were completed
  today, which payment or offer is the newest. In interleaved runs these choices are arbitrary. A limit of one
  flash offer a day is not claimed: it is checked only when a session is created.
- The job queue keeps no order and may rerun any job it ever had; that a submitted reading is processed at
  all is not claimed, since it is enqueued after the commit.
- FAILED does not imply RELEASED, and COMPLETED is not absorbing, with several jobs for one reading: the
  final write of a processor and the write of a retry are unconditional.
- Removing a draft (src/readings/readings.service.ts:511-527) checks and deletes in two statements, and the
  delete cascades to the reservation; it is not among the transactions.
- In the interleaved runs a submit takes the outcome of its reads on forms, spreads, services and photographs
  as given; they are separate models in `PalmImages.dfy` and `DrawOrder.dfy`.
- The table of webhook events is in `PaymentsService.dfy` and `WebhookDedup.dfy` only, where a delivery is two
  actions and its payment transaction one. In the interleaved runs of `Safety.dfy` a delivery is its approval or
  termination alone, statement by statement.
- The runs of `RefreshTokens.dfy`, `PalmImages.dfy` and `DailyCard.dfy` take each handler as one step. For each
  write that follows a check (rotation, issue of a token, slot, confirmation, verdict, submit, payment of a day) a
  lemma says exactly when it is safe on its own; runs of the finer steps are not modelled. Use and expiry of
  password links, and expiry of tokens, are inputs. Passwords are only counted: which one stays when two changes
  overlap is not modelled.
- WebhookDedup.DedupIsFreeInTheEnd: one direction. Tables that differed for a while can agree in the end in other
  ways too; what holds in both directions is agreement at every moment (`WebhookDedup.DedupIsFreeIff`).
- DailyCard.DailyCardService.GetTodaysCard: the cache loses nothing before it expires, and the deck's own cache
  is part of the deck that a request finds.
- TextWrap.WrapText: lengths count characters, where the source counts UTF-16 code units; for a text with
  empty words it is proved that only spaces are lost, not which.
- DrawOrder.SortSorts: the library's stable sort is modelled by stable insertion.
- AiOrchestrator.AiOrchestratorService.Execute: the substitution of variables in the prompt, the cost estimate and
  the detail of a schema error are not modelled.
- Controllers, guards, validation of requests, cookies, email, logging, hashing, signatures, and the clients of
  OpenAI, S3, Redis and Wompi.
- Layout of the share image, prompt texts, versions of prompts and forms, share links, cleanup of images, lists
  and the other metrics: they would only add easy members.
