# Verification of the marketplace backend

This project models the parts of the marketplace backend in which several aggregates have to agree, and proves what they
promise: the checkout saga and everything it drives, stock and reservations, the pricing of an order, the payment books,
and the category forest. Run `dafny verify dfyconfig.toml` to check it.

## How it is organised

Every aggregate appears twice: as a value with functions, which is the specification, and as a class or a loop that
changes state in place like the Go code and is proved to do what the functions say. Properties are lemmas about the
functions, over all inputs and all runs.

- **Shared**: `Kernel` (checked int64 money, int32 quantities, sums), `Sorting` (stable sort, byte order of SKUs),
  `Grouping` (sums divided by a key).
- **Checkout**: `Sagas`, `Compensation`, `OrderStatuses`, `Payments`, `Reservations` are the parts. `Checkout` is the
  protocol of one order: each database transaction and each call to inventory, payment or promo is one atomic step of a
  handler, a handler may stop after any step, and webhooks, expiry and fulfilment interleave freely.
  `CheckoutHandlers` has the handlers in the program's own control flow, calling ports and looking at errors, and proves
  that they take exactly these steps. `CheckoutSafety`, `CheckoutRuns` and `CheckoutMoney` hold under *any* interleaving of
  any number of handlers, `CheckoutAlone` when handlers on one order do *not overlap*. `CheckoutOverlaps` has the runs
  (built with `CheckoutRounds`) that break the latter with overlap; `CheckoutUndoing` and `CheckoutEndings` say exactly
  what it takes.
- **Inventory**: `StockItems`, `StockStore`, `StockCommands`, `InventoryHandlers`. `StockRuns` and `StockHistory` tie the
  inventory to the `Reservations` that the checkout relies on, `StockClients` is about versions, `StockLedger` about the
  ledger.
- **Pricing**: `Discounts`, `Distribution`, `DistributionProof`, `Quotes`, `Calculator`.
- **Orders and cart**: `OrderParts`, `Orders`, `CartPreview`.
- **Catalog**: `Categories`, `CategoryHandlers`, and `CategoryClients` for transactions that overlap.

## What was found

Where a property turned out to fail, there is a lemma with inputs for which it fails, and one that says when it holds.

- With overlapping handlers a shipped order can be refunded in full and its stock restored: `BeginCompensation` accepts a
  completed saga (`CheckoutOverlaps.ShippedOrderIsUndone`). A completed checkout stays completed exactly while no late
  handler runs `Abort` on it and nobody cancels it in time (`CheckoutEndings.CompletedStaysExactly`).
- Nor does a compensated saga then guarantee that its promo code was released, its payment settled or its order closed
  (`CheckoutOverlaps.PromoRedeemedAfterRelease`, `PaymentCreatedAfterSettlement`, `ShippedOrderIsUndone`). It is decided by
  the step that begins compensation: all of it is kept in every continuation exactly when, after that step, the handler
  that places the order is past redeeming the code and past creating the payment, and the order is not paid
  (`CheckoutUndoing.CompensatedIsUndoneExactly`).
- A late failure report can strand a compensated saga (`CheckoutOverlaps.LateFailureStrandsSaga`). It stays compensated
  exactly while no such report reaches the limit of attempts (`CheckoutEndings.CompensatedStaysExactly`), and the saga of a
  run is stranded exactly when support resumes one that has everything recorded (`CheckoutEndings.StrandedExactly`).
- Retrying a refund that the provider has refused reports success, so compensation can finish with the money kept
  (`CheckoutOverlaps.RetriedRefundHidesFailure`). A reported success means money back exactly when no earlier attempt
  under that reference was refused (`CheckoutMoney.RefundReportsOutcome`).
- A promo discount that is not more than the total can be refused: as long as no product wraps around, exactly when the
  rounded shares leave more for the last line than it costs (`DistributionProof.DistributionIsExact`). A product that
  wraps can refuse it too (`DistributionProof.LargeAmountsWrap`); `DistributionProof.DistributionSucceedsExactly` has the
  condition for all inputs.
- The cart shows less than the order costs when one seller's goods are free and the port charges for each parcel
  (`CartPreview.FreeSellerCostsMore`); `CartPreview.PreviewIsOrderTotalExactly` says when the two agree.
- Shipping named twice is only noticed when the first cost is not zero (`OrderParts.FreeEntryHidesSeller`); every seller is
  covered exactly when no free entry is followed by another for the same seller (`OrderParts.ShippingCoversSellers`).
- The ledger misses a return that is sent twice under one reference (`StockLedger.RepeatedReturnIsDropped`); it is complete
  exactly when no two movements of a SKU share reason and reference (`StockLedger.LedgerIsCompleteExactly`), and no save
  drops one exactly when none of its keys is stored already or repeated (`StockLedger.SaveEntersAllExactly`).
- Overlapping transactions can put one attribute code on a category and below it (`CategoryClients.CodeDefinedMeanwhile`).
  Every category classifies throughout a run exactly when no definition is saved whose code is, at that moment, on a
  category above or below, whatever was read before (`CategoryClients.ClassifiesExactly`).

## Conventions

An identifier is a natural number and `BLANK` the empty one; a point in time is a number of seconds and `NO_TIME` the zero
time. Errors are enumerations. Values that the constructors of the Go code validate (SKUs, slugs, addresses, currencies of
money values) are taken as valid.

## Model

| member | source | states |
|---|---|---|
| `Kernel.Money.Sub` | internal/shared/kernel/money.go:90-98 | Succeeds exactly within one currency when enough is there, and adding the subtrahend back restores the minuend |
| `Kernel.Money.MulQuantity` | internal/shared/kernel/money.go:100-106 | The dividing guard is exact: it refuses exactly the products above int64, and otherwise the product is the true one |
| `Kernel.Money.ApplyPercent` | internal/shared/kernel/money.go:108-113 | The split into whole ten-thousands and a rest is exactly floor(amount * bp / 10000), never more than the amount, and no intermediate value leaves int64 |
| `Kernel.SplitPercent` | internal/shared/kernel/money.go:108-113 | The identity behind ApplyPercent, for every amount and rate |
| `Sagas.KeepUndone` | internal/ordering/domain/saga.go:195-196 | The in-place filter leaves at the front of the plan exactly the steps not done yet, in order |
| `Sagas.CheckoutSaga.AwaitPayment` | internal/ordering/domain/saga.go:90-99 | Updates payment and step of a running saga, and nothing on an error |
| `Sagas.CheckoutSaga.BeginCommit` | internal/ordering/domain/saga.go:101-113 | Answers yes exactly for the saga's own payment while it waits or is committing, and moves on only from waiting |
| `Sagas.CheckoutSaga.StockCommitted` | internal/ordering/domain/saga.go:115-121 | In place: the specified state on success, the object unchanged on an error |
| `Sagas.CheckoutSaga.PaymentCaptured` | internal/ordering/domain/saga.go:123-129 | In place: the specified state on success, the object unchanged on an error |
| `Sagas.CheckoutSaga.Complete` | internal/ordering/domain/saga.go:131-140 | In place: the specified state on success, the object unchanged on an error, repeatable |
| `Sagas.CheckoutSaga.BeginCompensation` | internal/ordering/domain/saga.go:165-175 | Begins once, from any other status, completed included |
| `Sagas.CheckoutSaga.Pending` | internal/ordering/domain/saga.go:177-197 | The plan without the recorded steps, in order; nothing unless compensating |
| `Sagas.CheckoutSaga.Compensated` | internal/ordering/domain/saga.go:199-207 | Records a step once and closes the saga when nothing is pending |
| `Sagas.CheckoutSaga.CompensationFailed` | internal/ordering/domain/saga.go:209-215 | Counts the failure, in whatever status, and hands over to support at the limit |
| `Sagas.CheckoutSaga.Resume` | internal/ordering/domain/saga.go:217-223 | Back to compensating from manual only |
| `Sagas.CheckoutSaga.ChangePayment` | internal/ordering/domain/saga.go:225-234 | Another payment only while one is awaited |
| `Sagas.BackoffNeverShrinks` | internal/ordering/domain/saga.go:154-159 | More failed attempts never schedule the next retry earlier |
| `Sagas.CompensationBackoff` | internal/ordering/domain/saga.go:154-159 | Between ten seconds and ten minutes after a failure, at once without one |
| `Sagas.PendingIsRestOfPlan` | internal/ordering/domain/saga.go:177-197 | While what is recorded is a prefix of the plan, what is pending is the rest of it |
| `Sagas.MarkKeepsPlan` | internal/ordering/domain/saga.go:199-207 | Recording the next step, or an earlier one again and in any status, keeps the record a prefix of the plan; the saga closes exactly when the plan is exhausted |
| `Sagas.RoundRemovesHead` | internal/ordering/application/command/compensation.go:32-65 | A successful round removes exactly the head of what is pending, and the last one closes the saga |
| `Sagas.CompensationFreezesPlan` | internal/ordering/domain/saga.go:82-234 | After compensation has begun no call, in any order, changes plan, payment or refund, loses a recorded step, or returns the saga to running or completed |
| `Compensation.Run` | internal/ordering/application/command/compensation.go:32-65 | Undisturbed, the loop executes the first pending steps in order, at most four, until nothing is pending or exactly one failure is recorded |
| `OrderStatuses.ChangeContinues` | internal/ordering/domain/order.go:188-316 | Every status method keeps the history linked to the status by legal transitions, only appends to it, and never leaves a terminal status |
| `OrderStatuses.HistoryClimbs` | internal/ordering/domain/status.go:21-29 | No status is entered twice and no history is longer than eight changes |
| `OrderStatuses.PaidIsInHistory` | internal/ordering/domain/status.go:50-56 | An order in a paid status was once marked paid; an open or failed one never was |
| `Payments.OperationKeepsBalance` | internal/payment/domain/payment.go:112-316 | Every successful operation keeps the books balanced and changes the status only along the transition table, the direct write in CompleteRefund included |
| `Payments.ReachablePaymentsBalance` | internal/payment/domain/payment.go:93-316 | The books of every reachable payment: refunded = sum of succeeded refunds, sum of non-failed refunds <= captured <= authorized <= amount, refunded status exactly when all captured money went back |
| `Payments.BooksSay` | internal/payment/domain/payment.go:227-245 | A pending refund implies status captured and fits into what is left, so completing it is the legal step |
| `Payments.OutstandingIsSum` | internal/payment/domain/payment.go:273-286 | Adding up what is outstanding never fails and is the sum of the non-failed refunds |
| `Payments.CompleteKeepsBalance` | internal/payment/domain/payment.go:227-245 | Completing a known refund always succeeds on balanced books |
| `Payments.FullRefundTakesEverything` | internal/payment/domain/payment.go:288-298 | A first refund of the refundable amount asks for everything captured and ends in status refunded |
| `Payments.PaymentAccount.Authorize` | internal/payment/domain/payment.go:127-143 | In place: on success the object holds exactly the value its specification function gives, on a refusal it is unchanged |
| `Payments.PaymentAccount.Capture` | internal/payment/domain/payment.go:157-180 | In place: on success the object holds exactly the value its specification function gives, on a refusal it is unchanged |
| `Payments.PaymentAccount.Cancel` | internal/payment/domain/payment.go:182-192 | In place: on success the object holds exactly the value its specification function gives, on a refusal it is unchanged |
| `Payments.PaymentAccount.OutstandingRefunds` | internal/payment/domain/payment.go:273-286 | The loop adds up exactly the refunds that have not failed |
| `Payments.PaymentAccount.RequestRefund` | internal/payment/domain/payment.go:194-225 | In place: on success the object holds exactly the value its specification function gives, on a refusal it is unchanged |
| `Payments.PaymentAccount.CompleteRefund` | internal/payment/domain/payment.go:227-245 | In place: on success the object holds exactly the value its specification function gives, on a refusal it is unchanged |
| `Payments.PaymentAccount.FailRefund` | internal/payment/domain/payment.go:247-259 | In place: on success the object holds exactly the value its specification function gives, on a refusal it is unchanged |
| `Reservations.CallKeepsUniform` | internal/inventory/application/command/reservations.go:106-191 | Whatever is called on a uniform reservation, it stays uniform on the same lines, a dead one stays dead, and only a restore ends a commit |
| `Reservations.DeadStays` | internal/ordering/application/command/compensation.go:102-115 | After any sequence of calls on a dead reservation no line is committed and a commit is refused |
| `Reservations.RefusedReleaseMeansResolved` | internal/ordering/application/command/compensation.go:102-108 | A release refused as resolved means the lines are all committed or dead |
| `Reservations.RestoreSettles` | internal/ordering/application/command/compensation.go:110-114 | Whatever answer the compensator takes for success leaves the reservation dead |
| `CheckoutSafety.StepIsSound` | internal/ordering/application/command/progress.go:27-126 | Every step of every handler keeps the shared state safe, takes nothing back that others rely on, and leaves the handler where its expectations hold |
| `CheckoutSafety.OutsideIsSafe` | internal/payment/application/command/webhooks.go:80-141 | Webhooks, batch expiry and fulfilment keep the shared state safe as well |
| `CheckoutSafety.RunsAreSafe` | internal/ordering/application/command/support.go:49-83 | Every state reached by any interleaving of any number of handlers is safe |
| `CheckoutSafety.ExpectationsLast` | internal/ordering/application/command/compensation.go:32-65 | What a handler has read and relies on survives the steps of all others |
| `CheckoutRuns.CompletedMeansPaid` | internal/ordering/application/command/progress.go:57-126 | Any interleaving: a completed saga has every line committed, its payment captured for exactly the order total, and an order in a paid status |
| `CheckoutRuns.OnlyCompletingPays` | internal/ordering/application/command/progress.go:109-126 | No step but completing the saga makes an order paid |
| `CheckoutRuns.PaidAfterCommitAndCapture` | internal/ordering/application/command/progress.go:78-126 | Any interleaving: at the moment an order becomes paid its stock is committed and its money captured |
| `CheckoutRuns.OnePaymentIsCaptured` | internal/ordering/domain/saga.go:90-113 | Any interleaving: once a commit began for a payment, that payment stays the saga's, and capture is sent for no other |
| `CheckoutRuns.NothingIsCapturedUnaccepted` | internal/ordering/application/command/progress.go:94-107 | Any interleaving: capture is only sent for a payment that BeginCommit accepted |
| `CheckoutRuns.CompensationFollowsPlan` | internal/ordering/application/command/compensation.go:32-65 | Any interleaving: from the moment compensation begins plan, payment and refund are fixed, the record is a duplicate-free prefix of the plan and only grows |
| `CheckoutRuns.ReturnedStockStaysReturned` | internal/ordering/application/command/compensation.go:102-115 | Any interleaving: once stock is recorded as returned no line is committed, then or ever |
| `CheckoutRuns.CompensatedAnyway` | internal/ordering/application/command/compensation.go:67-135 | Any interleaving: what a compensated saga guarantees of stock, order and record |
| `CheckoutMoney.BuyerIsChargedOnce` | internal/ordering/application/command/progress.go:94-107 | Any interleaving: money is taken through one payment only, the saga's, never more than the order total, and never more is given back than was taken |
| `CheckoutMoney.RefundReportsOutcome` | internal/payment/application/command/payments.go:278-325 | Exactly when a refund call reports success, and that the money has then gone back exactly when an earlier attempt under that reference was not refused |
| `CheckoutMoney.RunsKeepBooks` | internal/payment/domain/payment.go:112-316 | Any interleaving: the books of all payments of the order balance, and only a capture that was sent has taken money |
| `CheckoutAlone.CompensatedIsUndone` | internal/ordering/application/command/compensation.go:22-135 | Without overlap, with stops after any step: compensated means nothing committed, payment absent, over or with a refund request under the saga's reference, promo released, order failed or cancelled |
| `CheckoutAlone.CompensatingHasWork` | internal/ordering/application/command/compensation.go:32-42 | Without overlap a saga that is compensating or with support always has a step left |
| `CheckoutAlone.RunsAloneAreFine` | internal/ordering/application/command/support.go:49-83 | The invariant of all runs without overlap |
| `CheckoutAlone.RefundSettles` | internal/payment/application/command/payments.go:278-325 | A refund call that reports success leaves its request on the payment |
| `CheckoutOverlaps.PromoRedeemedAfterRelease` | internal/ordering/application/command/place_order.go:237-246 | Overlap, for every order with a code: a run after which the saga is compensated and the code still used up |
| `CheckoutOverlaps.PaymentCreatedAfterSettlement` | internal/ordering/application/command/place_order.go:248-265 | Overlap, for every order: a run after which the saga is compensated and its payment authorized |
| `CheckoutOverlaps.LateFailureStrandsSaga` | internal/ordering/domain/saga.go:209-223 | Overlap, for every order and every limit of attempts: a late failure report on a closed saga, once resumed, leaves it compensating with nothing to do |
| `CheckoutOverlaps.ShippedOrderIsUndone` | internal/ordering/domain/saga.go:165-175 | Overlap, for every order: a stale worker aborts a completed saga, and a shipped order is refunded in full and its stock restored |
| `CheckoutOverlaps.RetriedRefundHidesFailure` | internal/payment/application/command/payments.go:278-325 | Retrying a refund that the provider refused reports success while the money is still captured, so a settled payment need not have been paid back |
| `CheckoutEndings.CompletedStaysExactly` | internal/ordering/domain/saga.go:165-175 | Any interleaving: a completed checkout stays completed exactly while no late handler runs Abort and nobody cancels it in time, and once it is left it never completes again |
| `CheckoutEndings.ClosedIsLeft` | internal/ordering/domain/saga.go:199-223 | In every state that an interleaving reaches: among the steps of handlers, a compensated saga is reopened exactly by a late failure report that reaches the limit, and a saga is stranded exactly by resuming one that has everything recorded |
| `CheckoutEndings.CompensatedStaysExactly` | internal/ordering/domain/saga.go:199-223 | Any interleaving: a compensated saga stays compensated throughout a continuation exactly when no failure report in it comes late and reaches the limit |
| `CheckoutEndings.StrandedExactly` | internal/ordering/domain/saga.go:217-223 | Any run: its saga is stranded at some point exactly when support resumes one that has everything recorded |
| `CheckoutUndoing.CompensatedIsUndoneExactly` | internal/ordering/application/command/compensation.go:22-135 | Any interleaving after the step that begins compensation: all that a compensated saga promises without overlap is kept in every continuation exactly when, after that step, the placing handler is past redeeming, and past creating the payment unless there is one, and the order is not paid |
| `CheckoutUndoing.GivenBackExactly` | internal/ordering/application/command/place_order.go:237-265 | The part about payment and promo code: kept in every continuation exactly when the placing handler is past redeeming, and past creating the payment unless there is one |
| `CheckoutUndoing.ClosedExactly` | internal/ordering/application/command/compensation.go:117-135 | The part about the order: failed or cancelled in every continuation exactly when the order was not paid when compensation began |
| `CheckoutRounds.Finish` | internal/ordering/application/command/compensation.go:32-65 | From any state of any run in which compensation has work left, a compensator that meets no trouble closes the saga, refunds what was captured and restores what was committed |
| `CheckoutHandlers.FollowIsSafe` | internal/ordering/application/command/support.go:39-83 | A handler that is not disturbed keeps the state safe, wherever it stops |
| `CheckoutHandlers.HandlerIsTurns` | internal/ordering/application/command/support.go:39-83 | A handler that runs while no other is at work is part of a run without overlap, so the results about those hold after it |
| `CheckoutHandlers.PlacingIsTurns` | internal/ordering/application/command/place_order.go:206-277 | The handler that places the order is at work from the beginning of a run without overlap |
| `CheckoutHandlers.Process.MutateSaga` | internal/ordering/application/command/support.go:49-63 | The changed saga is stored exactly when it is found and the change succeeds; nothing happens otherwise |
| `CheckoutHandlers.Process.MutateBoth` | internal/ordering/application/command/support.go:65-83 | Order and saga are both stored, or neither |
| `CheckoutHandlers.Process.StartCheckout` | internal/ordering/application/command/place_order.go:206-246 | Reserves, stores, redeems and gives back what it must: exactly the steps of the protocol, wherever it stops, and without an error exactly when the payment comes next |
| `CheckoutHandlers.Process.Pay` | internal/ordering/application/command/place_order.go:248-277 | Creates and awaits the payment, or aborts: exactly the steps of the protocol, wherever it stops |
| `CheckoutHandlers.Process.PaymentAuthorized` | internal/ordering/application/command/progress.go:27-55 | Moves on with the saga's own payment and cancels a stray one: exactly the steps of the protocol, wherever it stops |
| `CheckoutHandlers.Process.Advance` | internal/ordering/application/command/progress.go:57-76 | From whatever step the stored saga is in through commit and capture to completion: exactly the steps of the protocol, wherever it stops |
| `CheckoutHandlers.Process.CommitStock` | internal/ordering/application/command/progress.go:78-92 | Commits the reservation and records it, or aborts on a rejection; without a saga to go on with exactly when the worker is through |
| `CheckoutHandlers.Process.Capture` | internal/ordering/application/command/progress.go:94-107 | Captures and records it, or aborts on a rejection; without a saga to go on with exactly when the worker is through |
| `CheckoutHandlers.Process.Complete` | internal/ordering/application/command/progress.go:109-126 | Order paid and saga completed in one transaction, or an abort when the order refuses: exactly the steps of the protocol |
| `CheckoutHandlers.Process.Run` | internal/ordering/application/command/compensation.go:32-65 | The loop takes exactly the steps of load, execute and record, until nothing is pending, a step has failed, or the process stops |
| `CheckoutHandlers.Process.SettlePayment` | internal/ordering/application/command/compensation.go:81-100 | An absent or finished payment is settled, an open one cancelled, a captured one, or one captured by now, refunded; reports no error exactly when the protocol records the step |
| `CheckoutHandlers.Process.ReturnStock` | internal/ordering/application/command/compensation.go:102-115 | Releases, and restores what is resolved already; reports no error exactly when the protocol records the step |
| `CheckoutHandlers.Process.Execute` | internal/ordering/application/command/compensation.go:67-135 | Reports no error exactly when the protocol records the step as done |
| `CheckoutHandlers.Process.CancelOrder` | internal/ordering/application/command/orders.go:41-68 | Cancels and begins compensation together, unless committing, and runs it: exactly the steps of the protocol |
| `CheckoutHandlers.Process.ExpireCheckout` | internal/ordering/application/command/compensation.go:159-173 | Looks at the expiry again in the transaction that begins compensation: exactly the steps of the protocol |
| `CheckoutHandlers.Process.ResumeSaga` | internal/ordering/application/command/orders.go:156-170 | Resumes a saga from support and runs its compensation: exactly the steps of the protocol |
| `CheckoutHandlers.Process.RetryPayment` | internal/ordering/application/command/orders.go:90-140 | Another payment for a saga that waits for one, cancelled again when it cannot be stored: exactly the steps of the protocol |
| `StockItems.ResolveMovesHold` | internal/inventory/domain/stock_item.go:209-243 | On a stored item resolving moves exactly the held quantity, touches no other hold, and the subtraction from the reserved stock never fails; every refusal is named |
| `StockItems.RestoreTakesBack` | internal/inventory/domain/stock_item.go:151-176 | Restoring gives exactly the committed quantity back; every refusal is named |
| `StockItems.ReserveHolds` | internal/inventory/domain/stock_item.go:102-137 | A new reservation moves exactly the quantity and adds one hold; a repeated one changes nothing |
| `StockItems.ExpiryTakesWhatIsDue` | internal/inventory/domain/stock_item.go:178-191 | After a batch expiry exactly the held and due holds are expired, in place, and available grew by their sum; it fails exactly when that sum does not fit |
| `StockItems.CommandKeepsItem` | internal/inventory/domain/stock_item.go:67-254 | Every successful command keeps reservation ids unique, reserved = sum of held quantities, and its movements account for the physical change |
| `StockItems.StockItem.SetAvailable` | internal/inventory/domain/stock_item.go:86-100 | In place: on success the object holds exactly the value its specification function gives, on a refusal it is unchanged |
| `StockItems.StockItem.Reserve` | internal/inventory/domain/stock_item.go:102-137 | In place: on success the object holds exactly the value its specification function gives, on a refusal it is unchanged |
| `StockItems.StockItem.Resolve` | internal/inventory/domain/stock_item.go:209-243 | The exact new state, and the exact state an overflow leaves behind: reserved lowered, the rest untouched |
| `StockItems.StockItem.Restore` | internal/inventory/domain/stock_item.go:151-176 | In place: on success the object holds exactly the value its specification function gives, on a refusal it is unchanged |
| `StockItems.StockItem.ExpireDue` | internal/inventory/domain/stock_item.go:178-191 | Collecting first and expiring one by one gives the specified state and the list of expired reservations |
| `StockItems.StockItem.ReturnUnits` | internal/inventory/domain/stock_item.go:193-207 | In place: on success the object holds exactly the value its specification function gives, on a refusal it is unchanged |
| `StockStore.MemoryStore.Save` | internal/inventory/infrastructure/memory/store.go:92-116 | The version check, the new snapshot and the de-duplicated ledger, and what happens to the saved object |
| `StockStore.MemoryStore.Load` | internal/inventory/infrastructure/memory/store.go:118-138 | Exactly the matching items in byte order of their SKU, cut at the limit, in separate fresh objects |
| `Sorting.AscendingIsUnique` | internal/inventory/infrastructure/memory/store.go:125 | A strictly ascending list is determined by what it contains, so the order of the map walk does not matter |
| `Sorting.SortSorts` | internal/inventory/application/command/support.go:59 | The sort orders and rearranges, for every total preorder |
| `StockCommands.ParseSorts` | internal/inventory/application/command/support.go:37-61 | A request is accepted exactly with 1 to 100 lines, distinct SKUs and positive quantities, and is then rearranged into strictly ascending order |
| `StockCommands.LockFindsAll` | internal/inventory/application/command/support.go:88-97 | The lock finds as many items as requested only if all exist, and then exactly those in the order of the request |
| `StockCommands.ReserveMovesExactly` | internal/inventory/application/command/reservations.go:46-72 | Reserving under a new id moves exactly the requested quantity of every line or changes nothing, and succeeds exactly when every line can be served |
| `StockCommands.FreshReserve` | internal/inventory/application/command/reservations.go:51-65 | A new reservation is one command for each item, paired with its own line, all with the same expiry |
| `StockCommands.ApplyEachEffect` | internal/inventory/application/command/reservations.go:123-131 | A transaction over several items is all or nothing and changes nothing else |
| `InventoryHandlers.Inventory.Reserve` | internal/inventory/application/command/reservations.go:30-74 | On loaded objects, saving one after the other and rolling back on any error, the stored state becomes exactly that of the transaction on values, or stays |
| `InventoryHandlers.Inventory.Resolve` | internal/inventory/application/command/reservations.go:106-132 | On loaded objects, saving one after the other and rolling back on any error, the stored state becomes exactly that of the transaction on values, or stays |
| `InventoryHandlers.Inventory.ExpireReservations` | internal/inventory/application/command/reservations.go:160-191 | On loaded objects, saving one after the other and rolling back on any error, the stored state becomes exactly that of the transaction on values, or stays |
| `InventoryHandlers.Inventory.ReturnStock` | internal/inventory/application/command/stock.go:146-170 | On loaded objects, saving one after the other and rolling back on any error, the stored state becomes exactly that of the transaction on values, or stays |
| `InventoryHandlers.Inventory.SetStock` | internal/inventory/application/command/stock.go:80-118 | On loaded objects, saving one after the other and rolling back on any error, the stored state becomes exactly that of the transaction on values, or stays |
| `InventoryHandlers.Inventory.EnsureStock` | internal/inventory/application/command/stock.go:27-57 | On a loaded object and the store, the stored state becomes exactly that of the transaction on values, or stays |
| `StockRuns.ResolveRefines` | internal/inventory/application/command/reservations.go:106-132 | Commit, release and restore transactions are the line calls of Reservations on the lines of their reservation, with the same refusals, and leave all other reservations alone |
| `StockRuns.ExpiryRefines` | internal/inventory/application/command/reservations.go:160-191 | A batch expires of each reservation exactly the held and due lines it reached |
| `StockRuns.ReserveLinesEffect` | internal/inventory/application/command/reservations.go:46-65 | A reservation of several lines ends with its lines held, none of them resolved before, and others untouched |
| `StockHistory.ReservationsStayUniform` | internal/inventory/application/command/reservations.go:106-191 | Over every run of inventory transactions, each reservation used with one line set: its holds are all equal, or a mix of held and expired |
| `StockHistory.ReturnedStaysReturned` | internal/inventory/application/command/reservations.go:102-146 | Once a release or restore has succeeded, no line is committed after any later run |
| `StockClients.NoUpdateIsLost` | internal/inventory/infrastructure/memory/store.go:92-116 | However clients interleave load, change and save, every stored item is the replay of the saved batches in save order, and its version counts them |
| `StockClients.SaveNeedsLatest` | internal/inventory/infrastructure/memory/store.go:97-102 | A save succeeds exactly when nobody has saved the item since it was loaded |
| `StockLedger.LedgerAccounts` | internal/inventory/infrastructure/memory/store.go:106-113 | With unique external references and no return under a reservation id, any interleaving: the stored deltas of a SKU sum to available + reserved |
| `StockLedger.PerformBooked` | internal/inventory/domain/stock_item.go:67-254 | Under that discipline no command ever enters a movement with a key that is already there |
| `StockLedger.LedgerIsCompleteExactly` | internal/inventory/infrastructure/memory/store.go:106-113 | Any interleaving: the ledger holds every movement of a SKU exactly when no two of them share reason and reference |
| `StockLedger.SaveEntersAllExactly` | internal/inventory/infrastructure/memory/store.go:106-113 | A save enters all movements of its item exactly when none has the key of a stored one or of another of its own |
| `StockLedger.RepeatedReturnIsDropped` | internal/inventory/application/command/stock.go:146-170 | Without it the ledger is wrong: a return sent twice under one reference is added twice and entered once |
| `Discounts.NewRule` | internal/pricing/domain/discount_rule.go:48-68 | A rule can be made exactly from a valid specification, and is then valid |
| `Discounts.DiscountFits` | internal/pricing/domain/discount_rule.go:109-171 | No rule takes more than the current price, so subtracting its discount never fails, and the free units always fit int32 |
| `Discounts.FreeUnitsAreFree` | internal/pricing/domain/discount_rule.go:157-171 | Buying n and getting m takes exactly the price of m units for every n bought, up to the current price |
| `Discounts.ReleaseUndoesRedeem` | internal/pricing/domain/promo_code.go:145-183 | Releasing gives the redeemed use back once, and limits are respected |
| `Discounts.Promo.Discount` | internal/pricing/domain/promo_code.go:97-115 | The discount is never more than the subtotal |
| `Discounts.PromoCode.Redeem` | internal/pricing/domain/promo_code.go:145-167 | In place: on success the object holds exactly the value its specification function gives, on a refusal it is unchanged |
| `Discounts.PromoCode.Release` | internal/pricing/domain/promo_code.go:169-183 | In place: on success the object holds exactly the value its specification function gives, on a refusal it is unchanged |
| `Distribution.Distribute` | internal/pricing/domain/calculator.go:139-174 | The in-place loop computes the specified distribution, wrap-around included |
| `DistributionProof.DistributionIsExact` | internal/pricing/domain/calculator.go:139-174 | Without wrap-around it succeeds exactly when d - sum of the other floors <= last price; then shares sum to d, none exceeds its line, and the last exceeds its floor by at most n - 1 |
| `DistributionProof.DistributionSucceedsExactly` | internal/pricing/domain/calculator.go:139-174 | All lines and discounts, wrap-around included: it succeeds exactly when one line can bear what the wrapped parts of the lines before it leave, none of these being negative or above its price |
| `DistributionProof.SmallLastLineRefuses` | internal/pricing/domain/calculator.go:153-163 | Prices 100, 100, 1 refuse a discount of 100 |
| `DistributionProof.LargeAmountsWrap` | internal/pricing/domain/calculator.go:152 | Two prices of 4,000,000,000 refuse a discount that would fit, because the product wraps |
| `Quotes.ApplicableInOrder` | internal/pricing/domain/calculator.go:128-137 | Exactly the applicable rules, by descending priority, ties in the given order |
| `Quotes.RulesKeepBalance` | internal/pricing/domain/calculator.go:105-124 | Stacking rules keeps base = final + discounts, and the capping branch is never taken |
| `Quotes.ExclusiveIsLast` | internal/pricing/domain/calculator.go:105-124 | Nothing follows an exclusive rule that took something; a rule that takes nothing stops nobody |
| `Quotes.SpreadBalances` | internal/pricing/domain/calculator.go:147-173 | Whenever the discount is spread at all, wrap-around or not, it is spread completely and every line keeps its books |
| `Quotes.QuoteBalances` | internal/pricing/domain/calculator.go:38-94 | Every quote balances: base = unit * quantity = final + discounts on each line, finals sum to the total, subtotal - total = discount = sum of all discounts |
| `Quotes.RedeemRecordsGrantedDiscount` | internal/ordering/application/command/place_order.go:176-182 | Finals plus code-tagged discounts are the price before the code, and redeeming on it records exactly the granted discount |
| `Quotes.QuoteWithoutPromo` | internal/pricing/application/query/quote.go:181-187 | A quote with a code can only be had where one without it can |
| `Calculator.Collect` | internal/pricing/domain/calculator.go:128-137 | The filter loop and stable sort give the specified stack of rules |
| `Calculator.PriceLine` | internal/pricing/domain/calculator.go:96-126 | The loop gives the specified line |
| `Calculator.Quotation` | internal/pricing/domain/calculator.go:38-94 | The loops, with the in-place distribution, give the specified quote |
| `OrderParts.ItemsAreChecked` | internal/ordering/domain/order.go:125-147 | The check accepts exactly distinct SKUs with consistent prices in one currency and final within base |
| `OrderParts.PartsAreDivided` | internal/ordering/domain/order.go:149-178 | The parts partition the order by seller: one each, in order of first appearance, with the sums of exactly its items and costs |
| `OrderParts.PlacedOrderAddsUp` | internal/ordering/domain/order.go:86-123 | Every accepted order: parts by seller, shipping of the parts = given costs, total = subtotal - discount + shipping on parts and order |
| `OrderParts.ShippingCoversSellers` | internal/ordering/domain/order.go:163-178 | Every seller is named in shipping exactly when no free entry is followed by another for the same seller |
| `OrderParts.FreeEntryHidesSeller` | internal/ordering/domain/order.go:166-170 | An order that is accepted although its second seller is never charged shipping |
| `OrderParts.PlaceNeverPanics` | internal/ordering/domain/order.go:140-186 | Within int32 quantities and int64 sums neither panic can happen |
| `Orders.CheckItems` | internal/ordering/domain/order.go:125-147 | The loop reports the first error |
| `Orders.DivideItems` | internal/ordering/domain/order.go:150-162 | The loop over items, updating parts in place, gives the specified parts |
| `Orders.ChargeParts` | internal/ordering/domain/order.go:163-178 | The loop over the shipping costs charges each to its seller's part or reports the specified error |
| `Orders.DivideBySeller` | internal/ordering/domain/order.go:149-178 | Both loops give the specified parts or the specified error |
| `Orders.PlaceOrder` | internal/ordering/domain/order.go:86-123 | The new order has the specified parts and totals and starts as created |
| `Orders.Order.MarkPaid` | internal/ordering/domain/order.go:208-223 | In place: the specified status, history and payment on success, the order unchanged on a refusal |
| `Orders.Order.MarkShipped` | internal/ordering/domain/order.go:236-250 | In place: the specified status, history and payment on success, the order unchanged on a refusal; a paid order passes through fulfilment |
| `Orders.Order.Cancel` | internal/ordering/domain/order.go:279-304 | In place: the specified status, history and payment on success, the order unchanged on a refusal |
| `Orders.Order.AwaitPayment` | internal/ordering/domain/order.go:188-206 | In place: the specified status, history and payment on success, the order unchanged on a refusal |
| `Grouping.GroupsAddUp` | internal/ordering/domain/order.go:149-162 | Divided by a key whose values are each listed once, nothing is lost or counted twice |
| `CartPreview.ApplyQuote` | internal/cart/application/view.go:191-202 | In place, every line gets the prices of its SKU, or stays |
| `CartPreview.GroupLines` | internal/cart/application/view.go:206-228 | The loop gives the specified groups |
| `CartPreview.GroupsAreTotals` | internal/cart/application/view.go:206-228 | One group for each seller in order of the lines, with subtotal, discount and total of its available lines |
| `CartPreview.Prepare` | internal/ordering/application/command/place_order.go:150-188 | The order's loop gives its items, a parcel for each seller with its sum, and the amount before the promo code |
| `CartPreview.ParcelsAgree` | internal/cart/application/view.go:229-233 | The cart asks about the same parcels as the order exactly when every seller's goods cost something |
| `CartPreview.OrderCarriesQuote` | internal/ordering/application/command/place_order.go:150-204 | The order placed from a quote has the quote's subtotal and discount, and its total plus shipping |
| `CartPreview.PreviewIsOrderTotal` | internal/cart/application/view.go:204-248 | The total shown in the cart is the total of the order placed from it |
| `CartPreview.PreviewIsOrderTotalExactly` | internal/cart/application/view.go:204-248 | Every cart whose lines are available: preview and order total agree exactly when the port's total for the sellers whose goods cost something is the sum of its costs for all of them |
| `CartPreview.FreeSellerCostsMore` | internal/cart/application/view.go:227-238 | Wherever one seller's goods cost nothing and the port charges each parcel alike, the order costs more than the cart has shown |
| `Categories.EveryRunClassifies` | internal/catalog/domain/schema.go:96-117 | In every store reached by transactions one after the other, every category classifies: exact root path, at most six deep, no code twice |
| `Categories.EveryCategoryClassifies` | internal/catalog/domain/schema.go:96-117 | The same for any forest, with the schema that is inherited along the path |
| `Categories.AncestorsNest` | internal/catalog/domain/category.go:37-43 | Every ancestor stores the beginning of the path |
| `Categories.NextKeepsForest` | internal/catalog/application/command/define_attribute.go:39-55 | Creating, defining, removing and renaming keep the forest |
| `Categories.DefineKeepsForest` | internal/catalog/domain/category.go:79-92 | A defined code clashes with nothing above and nothing below |
| `Categories.ClassifyExactlyInForest` | internal/catalog/domain/schema.go:96-117 | Where categories store their paths and repeat no code themselves, all of them classify exactly when no code occurs twice on a chain |
| `Categories.BranchesShareCodes` | internal/catalog/domain/category.go:79-92 | Categories on different branches may define the same code |
| `CategoryHandlers.CategoryObject.DefineAttribute` | internal/catalog/domain/category.go:79-92 | In place: on success the object holds exactly the value its specification function gives, on a refusal it is unchanged |
| `CategoryHandlers.CategoryObject.RemoveAttribute` | internal/catalog/domain/category.go:94-103 | In place: on success the object holds exactly the value its specification function gives, on a refusal it is unchanged |
| `CategoryHandlers.BuildSchema` | internal/catalog/domain/schema.go:14-23 | Accepts exactly definitions without a repeated code |
| `CategoryHandlers.ClassifyChain` | internal/catalog/domain/schema.go:96-117 | The loop gives the specified classification or error |
| `CategoryHandlers.CategoryStore.Save` | internal/catalog/infrastructure/memory/store.go:120-138 | The version check, the check of sibling slugs, and the new snapshot |
| `CategoryHandlers.CategoryStore.FindChain` | internal/catalog/infrastructure/memory/store.go:87-103 | The stored categories of the path, or the error |
| `CategoryHandlers.CategoryStore.DescendantAttributeCodes` | internal/catalog/infrastructure/memory/store.go:105-118 | Exactly the codes defined below, in whatever order the map is walked |
| `CategoryHandlers.DefineAttribute` | internal/catalog/application/command/define_attribute.go:31-56 | On a loaded object and the store, the stored state becomes exactly that of the transaction on values, or stays |
| `CategoryHandlers.CreateCategory` | internal/catalog/application/command/create_category.go:31-63 | On a loaded object and the store, the stored state becomes exactly that of the transaction on values, or stays |
| `CategoryHandlers.RemoveAttribute` | internal/catalog/application/command/remove_attribute.go:24-30 | On a loaded object and the store, the stored state becomes exactly that of the transaction on values, or stays |
| `CategoryClients.ClassifiesExactly` | internal/catalog/application/command/define_attribute.go:31-56 | Any interleaving of clients that load, check and save: every category classifies throughout the run exactly when no definition is saved whose code is, at that moment, on a category above or below |
| `CategoryClients.SaveKeepsForestExactly` | internal/catalog/infrastructure/memory/store.go:120-138 | Whatever was read and whenever: a save keeps the forest exactly when it does not put a code where a category above or below has it by now |
| `CategoryClients.ClashingReadsAreStale` | internal/catalog/application/command/define_attribute.go:39-54 | A save that clashes was checked against an inherited schema or descendant codes that have changed since |
| `CategoryClients.RunsAreSound` | internal/catalog/infrastructure/memory/store.go:120-138 | Any interleaving: paths stay rooted, no category repeats a code, and what a client loaded is what is stored while the version is the same |
| `CategoryClients.CodeDefinedMeanwhile` | internal/catalog/application/command/define_attribute.go:39-54 | A run, for every code: a category is created and the code defined on it while a checked definition above waits to be saved; it no longer classifies |

## Left out

- Categories.NextKeepsForest: holds for transactions that run one after the other; `CategoryClients` covers those that overlap.
- StockHistory.ReservationsStayUniform: assumes that a reservation id is always used with the same SKUs, as placing an order does.
- StockLedger.LedgerAccounts: assumes unique external references for each SKU and reason; `StockLedger.RepeatedReturnIsDropped` shows why.
- DistributionProof.DistributionIsExact: assumes that no product wraps around; `DistributionProof.DistributionSucceedsExactly` and `Quotes.SpreadBalances` do not.
- CartPreview.PreviewIsOrderTotal: needs no seller with goods that cost nothing; `CartPreview.PreviewIsOrderTotalExactly` does not.
- CartPreview.PreviewIsOrderTotalExactly: needs every line available; the retry of a quote without the promo code or without unpriced offers is not part of the model.
- CartPreview.GroupsOf: adds without bounds; the sums are bounded by the totals of the quote, which fit int64.
- Quotes.ByPriority: compares priorities as integers; the source subtracts them, which wraps for values beyond half the int64 range.
- OrderParts.Place: leaves out the order and buyer ids, the address, titles and the delivery method.
- Checkout.StepForward: leaves out the last error that is recorded when a port fails and the metrics.
- Checkout.StepAside: leaves out who may cancel, retry or resume; cancellation takes the kind of actor as given.
- CheckoutHandlers.Process.CancelOrder: leaves out which principal acts for the order, and the reason.
- CheckoutHandlers.Process.ResumeSaga: leaves out the permission of support.
- CheckoutHandlers.Process.RetryPayment: leaves out that the saga must be the buyer's own.
- CheckoutHandlers.Process.StartCheckout: begins with a drafted order; pricing is `Quotes` and `CartPreview.Prepare`, placing `OrderParts.Place`.
- CheckoutHandlers.Process.ExpireCheckout: one expired checkout; the batch queries for expired, compensating and stalled sagas are left out, because in the model any handler may begin at any time on any saga.
- Checkout.StepOutside: the provider's events on known payments; finding the payment of an event, signatures and saved payment methods are left out.
- Checkout.RefundPayment: request, provider call and outcome of a refund as one step, like every other port call. A transaction that fails has no effect; a port call that fails may have had one.
- InventoryHandlers.Inventory.ChangeEach: one loop for the three loops that change and save locked items.
- Orders.CheckItems: leaves out the length of titles and the trimming of SKUs, as does OrderParts.ItemsAreChecked.
- OrderParts.ItemsAreChecked: see Orders.CheckItems.
- Orders.PlaceOrder: leaves out what OrderParts.Place leaves out.
- Orders.Order.Cancel: leaves out the check of the reason and whose order the buyer cancels.
- CartPreview.ApplyQuote: leaves out unit price, compare-at price and the flag of a changed price, which no total uses.
- Quotes.ApplicableInOrder: see Quotes.ByPriority.
- CategoryHandlers.DefineAttribute: takes a valid definition and a permitted actor.
- CategoryHandlers.CreateCategory: takes valid names and a permitted actor.
- CategoryHandlers.RemoveAttribute: takes a permitted actor.
- InventoryHandlers.Inventory.SetStock: leaves out the membership check and the reference drawn when none is given.
- StockStore.MemoryStore.Load: the stored snapshots; the database keeps the order of holds by creation time, which is the order in which they are appended here.
- The unit of work in memory does not roll back; the model does, like the database.
- Orders and sagas carry versions too; their transactions lock the rows, so the checkout model takes each transaction as atomic.
- Reason texts, audit entries, domain events, wall-clock types and read models.
- HTTP, wiring, codecs, workers, SQL, import, media, identity, seller moderation, offers, products and the lifecycle of promotions: small guards or plumbing.
- The currency of a cart: an emptied cart keeps its old currency, so a consistency claim would be false.
