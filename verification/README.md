# Shop verification

A Dafny model of the shop backend's stateful core, with machine-checked proofs about it. `dafny verify dfyconfig.toml`
checks everything.

The centre is the life of an order: units of stock moving between available, reserved and committed; a nine-status state
machine; Stripe webhooks, reconciliations and sweeps, a reservation timer and administrators acting in any order, any
number of times, with crashes between the ledger row and the settlement it announces. Around it stand six smaller cores:
the cart, refresh-token rotation, the media folder tree, the SVG artwork reader, the placeholders of HTML translation,
and newsletter sending.

| file | models |
|---|---|
| `Inventory.dfy` | stock rows, the movement log, line-by-line movement of whole orders |
| `Orders.dfy`, `OrderInvariants.dfy` | status transitions, payment confirmation, checkout, and what each of them keeps |
| `Payments.dfy` | Stripe intents, the idempotent ledger, settlement, the reservation timer |
| `Transitions.dfy`, `Checkouts.dfy`, `Settlements.dfy` | what each status change, checkout step and payment call succeeds on, writes and moves, column by column |
| `Fulfilment.dfy` | whole lives of an order: bought, shipped and delivered; timed out and paid late; cancelled by hand and paid in vain |
| `Lifecycle.dfy`, `Evolution.dfy` | runs of seventeen kinds of step, the invariants of every reachable state, and what a step can do to one order |
| `Interleavings.dfy`, `OpenOrders.dfy`, `Confirmations.dfy`, `StaleReads.dfy` | calls that read first and write later, any number in flight: stock, duplicate orders, double payments, and exactly what each late write breaks |
| `Convergence.dfy` | money held by Stripe becomes a paid order |
| `Charges.dfy` | when the customer is charged the order's total, and when its subtotal is that of its lines |
| `Reservations.dfy`, `Holds.dfy` | every deadline has a job queued to enforce it, and no order is cancelled before its own |
| `Cart.dfy`, `CartInvariants.dfy`, `CartMatch.dfy` | tier prices, line merging and splitting, the draft-against-cart comparison |
| `CartPrices.dfy`, `CartDesigns.dfy` | what a line costs, where its units go when their embroidery changes, and what each call is refused for |
| `RefreshTokens.dfy` | concurrent refreshes, one database call per step |
| `MediaFolders.dfy` | create, move and delete on the folder forest |
| `SvgArtwork.dfy`, `SvgCascade.dfy`, `SvgInheritance.dfy` | the tag loop against the element tree, the paint of every shape read off the file, and what the reader leaves out of a shape's surroundings |
| `Placeholders.dfy` | inline tags through a translation |
| `Newsletter.dfy` | paging, sending, retries after a crash |
| `Witnesses.dfy` | concrete runs of the shop that reach the states the theorems single out |

Code that updates rows in place is a class whose methods are proved equal to a function on the old state; the theorems
are about those functions, and about runs built from them.

## How the model reads the code

- In `Lifecycle` every call is one step: transition, payment confirmation, one firing of the timer, initiate,
  createFromCart, updateShipping, readyForPayment, and minting or reusing an intent. `Interleavings` takes four of them
  apart: initiate into its lookup, cancellation or re-pricing, creation and queueing; transition and readyForPayment into
  the status read and the write; a confirmation of money Stripe holds into the read of the order, the look at its last
  history row, the restore, the link, and the read and write of each status step. The timer, updateShipping, minting,
  createFromCart and payments recorded by hand stay whole there too.
- An expiry job makes two reads of Stripe when the first says the money is there; each may fail on its own.
- Writing the ledger row and settling are separate: `crash` ends a step between them.
- Stripe is a map from intents to status, amount and owning order. A succeeded or cancelled intent is final there; every
  other status may change at any time. `up`, `again`, `unread` and `Gateway` say which calls to it go through, `lag` how
  late a delayed job is accepted, `now` moves only in a tick.
- Stock, design resolution, promotion and shipping answers, the colour syntax, path geometry, string collation and JSON
  text are parameters, so results hold for all of them.
- A refused database transaction leaves its state unchanged; adding to and removing from the job queue succeeds.

## Where the code and its comments differ

The model follows the code. Each point names the lemma that shows it, and the concrete case where there is one.

- An expiry job that is told the money is there, and whose settlement then cannot read Stripe, ends all the same
  (`src/checkout/checkout-reservation.processor.ts:52-55`). If it was the last one, the order stays open past its
  deadline with nothing queued (`Reservations.FiringKeepsJobIff`, `Witnesses.UnenforcedDeadline`). Stripe holds the money
  of every such order, and the next completed settlement ends it (`Holds.UnenforcedIsOnTrack`).
- Checkout is meant to resume a cart's order rather than create a second one (`src/checkout/checkout.service.ts:155-157`).
  The lookup and the creation are not one transaction and no key forbids two open orders: a checkout submitted twice
  reserves the cart's stock twice (`OpenOrders.OneOpenAlwaysIff`, `Witnesses.TwoTabs`).
- readyForPayment writes on the strength of an earlier read (`src/checkout/checkout.service.ts:565-626`). If the timer
  cancels in between, the order is open again with nothing reserved (`StaleReads.StaleReadyIff`, `Witnesses.LateReady`).
- A rebuild is meant to cancel an order only before a payment has been started
  (`src/checkout/checkout.service.ts:164-171`). One decided earlier goes through on an order that is paid or in processing
  by then, or open with an intent minted since, whose money Stripe may already hold; nothing that arrives later brings the
  order back (`StaleReads.StaleRebuildIff`, `Confirmations.BuriedForGood`, `Witnesses.LateRebuild`).
- A checkout that resumes an order found earlier can give a paid order another coupon, which nobody has counted
  (`StaleReads.StaleResumeIff`, `Witnesses.LateResume`).
- `confirmPayment` is said to be the only path to paid, so that nothing is counted twice
  (`src/orders/orders.service.ts:286-288`). Its guard reads the status in no transaction: two settlements of one payment, a
  webhook and a reconciliation, can both pass it and both pay the order, which then counts twice and has its units
  committed twice (`Confirmations.PaidOnceAlwaysIff`, `Witnesses.TwoSettlements`).
- Nothing compares the money with the total. Shipping can be chosen, and the order resumed, while the payment is on its
  way, so an order can be paid for less than it costs (`Charges.SyncedAlwaysIff`, `Witnesses.PaidTooLittle`).
- Resuming an order with a payment started re-prices it from the cart and keeps its lines
  (`src/checkout/checkout.service.ts:183-230`): it can show the price of lines it does not hold
  (`Charges.SubtotalsAlwaysIff`, `Witnesses.PricedForTwo`).
- `personaliseItem` is documented to leave the basket as it was when a variant sells out
  (`src/cart/cart.service.ts:448-450`). Its adds are separate: a refusal at a later group keeps the earlier ones, so
  those units are in the cart twice (`CartInvariants.RefusedPersonalisation`, `CartInvariants.FourthCap`).
- The refund webhook writes its ledger row before it moves the order, and a redelivery stops at the row: a crash in
  between loses the refund for good (`Convergence.InterruptedRefundIsLost`). Payments do not have this fault
  (`Convergence.MoneyBecomesAPaidOrder`).
- `confirmPayment` overwrites the payment intent and drops the expiry job before it finds that a processing, shipped,
  delivered or refunded order cannot be paid (`OrderInvariants.ConfirmedOutcome`).
- Logging out with a token that was already rotated moves its revocation time, so a replay shortly after is taken for a
  race (`RefreshTokens.ReuseDetectedIff`).
- Detected reuse is said to revoke the whole family and force a new login everywhere
  (`src/auth/auth.service.ts:59-61`). A refresh already granted, or a token rotated inside the grace window, still gives a
  session afterwards (`RefreshTokens.RevocationIsFinalIff`).
- The artwork reader seeds its stack with the root element and then pushes the root again, so a transform on the root is
  applied twice (`SvgArtwork.RootTransformCountsOnceIff`, `SvgInheritance.ScaledRoot`).
- It promises SVG's own order of transforms and a browser's cascade (`src/personalization/svg-artwork.ts:233`, `417-422`),
  but only `g` and `svg` hand paint and transforms on: those of a link or a switch around a shape are dropped
  (`SvgInheritance.FileSourcesIff`, `SvgInheritance.StrayTransformsShowIff`, `SvgInheritance.MovedLink`).
- `restoreInlineTags` returns every opening tag unless an attribute value holds a `>`, where the stored tag ends early
  (`Placeholders.RoundTripIff`, `Placeholders.BracketInAttribute`).

## Model

| member | source | states |
|---|---|---|
| `Lifecycle.StockInEveryRun` | src/inventory/inventory.service.ts:214-474 | in every state reached by whole calls, per variant: reserved and committed are the sums over the orders in those statuses, available is never negative, all units are conserved up to shipments, restocks and adjustments, and the movement log replays row by row |
| `Fulfilment.BoughtAndDelivered` | src/orders/orders.service.ts:234-400 | from any sound shop, a basket without an open order and with enough stock, taken through checkout, shipping, payment and delivery with every call going through: the order is charged its subtotal less the three discounts plus shipping, with one ledger row, one completion and one coupon use, its six history rows in order, and its units are gone from the shelves and the house with reserved and committed as before |
| `Fulfilment.PaidIsDelivered` | src/orders/orders.service.ts:43-299 | from any sound shop a paid order taken by a person through processing and shipping ends delivered; its units leave committed and count as shipped, and no other order changes |
| `Fulfilment.LateMoneyStillPays` | src/orders/orders.service.ts:362-400 | an order the timer has just cancelled, whose variants all have stock rows, is restored and paid by the late money, as if it had come in time, since the units it gave up are still there |
| `Fulfilment.CancelledByHandStays` | src/orders/orders.service.ts:366-376 | an order a person has cancelled stays cancelled when its money arrives: the charge is logged, the units stay on the shelves |
| `Interleavings.StockAlwaysIff` | src/orders/orders.service.ts:234-413 | however checkouts, status changes, payment confirmations and their restores interleave, the stock sums hold all along exactly when no status write lands after its order's units have left the bucket in which the status was read, and no restore reserves for an order that holds its units already |
| `Interleavings.InitiateIsItsCalls` | src/checkout/checkout.service.ts:138-417 | uninterrupted, the database calls of checkout's first step add up to the whole step |
| `Interleavings.TransitionIsItsCalls` | src/orders/orders.service.ts:234-302 | so do the read and the write of a status change, and of the step to payment |
| `Interleavings.ConfirmIsItsCalls` | src/orders/orders.service.ts:355-400 | and so do the database calls of a payment confirmation, restore included |
| `StaleReads.GoodAlwaysIff` | src/checkout/checkout.service.ts:138-417 | whatever is in flight, stock sums, chained histories with one payment, counts, coupon uses, totals and the ledger hold all along exactly when every late write is harmless: a rebuild finds its order neither paid nor processing, a re-pricing finds it unpaid or under the same coupon, a restore finds it cancelled and never paid, a status write finds the status it read and, to cancel a paid order, comes from a person |
| `StaleReads.HarmlessRunsAreSound` | src/checkout/checkout.service.ts:138-417 | in every such run, however stale the lookups behind creations, each open deadline has its job, or Stripe holds the money, or a checkout has yet to queue the job or a confirmation to link its intent; restores never outnumber payments but for confirmations taken apart |
| `StaleReads.StaleReadyIff` | src/checkout/checkout.service.ts:565-626 | a late write of readyForPayment keeps the stock sums exactly when the order still holds its reservation or no tracked units, and the history exactly when it is still a draft |
| `StaleReads.StaleWriteHistoryIff` | src/orders/orders.service.ts:235-264 | a status write keeps the history a chain exactly when the status is still the one read |
| `StaleReads.StaleResumeIff` | src/checkout/checkout.service.ts:183-238 | re-pricing an order found earlier keeps coupon uses right exactly when it is still unpaid or the coupon is the same |
| `StaleReads.StaleRebuildIff` | src/checkout/checkout.service.ts:164-181 | a rebuild cancels an order with a payment behind it exactly when the order is paid or in processing, or open with an intent minted since the lookup; Stripe is not told and every confirmation of it is refused |
| `StaleReads.RebuiltGoodIff` | src/checkout/checkout.service.ts:172-181 | a rebuild keeps every invariant exactly when its order is neither paid nor in processing |
| `StaleReads.RestoredGoodIff` | src/orders/orders.service.ts:368-384 | a restore keeps every invariant exactly when its order is still cancelled and was never paid, or the stock is refused |
| `Confirmations.BuriedForGood` | src/orders/orders.service.ts:368-376 | an order cancelled by a person or a rebuild keeps its status and history whatever arrives, until a write already in flight lands on it |
| `Confirmations.PaidOnceAlwaysIff` | src/orders/orders.service.ts:355-400 | whatever is in flight, every order is paid at most once and then stays out of a payment's reach exactly when no write that pays or reopens an order lands on one that has been paid |
| `Confirmations.CompletionsAlways` | src/orders/orders.service.ts:281-285 | in every interleaving, stale or not, lifetime statistics count an order once for each time its history pays it |
| `Witnesses.TwoSettlements` | src/orders/orders.service.ts:355-400 | a webhook and a reconciliation in flight pay one order twice and commit its cap twice |
| `Witnesses.LateRebuild` | src/checkout/checkout.service.ts:164-181 | a basket changed while its order was unpaid: the customer pays, the order is cancelled, and the webhook cannot pay it |
| `Witnesses.LateResume` | src/checkout/checkout.service.ts:183-238 | a resumption that looked the order up before it was paid leaves a paid order with a coupon nobody counted |
| `Witnesses.LateReady` | src/checkout/checkout.service.ts:565-626 | a draft whose timer fires between the read and the write is open again with nothing reserved |
| `Evolution.NextEvolved` | src/orders/orders.service.ts:234-413 | no whole step reopens an order, unburies one, pays one twice, changes its lines or cart, or re-prices it, but for the resumption that re-prices one open order |
| `Evolution.HistoryInEveryRun` | src/orders/orders.service.ts:251-302 | in every reachable state each history is a chain of allowed transitions (or the timeout restore) ending at the status, with at most one payment, at most as many restores as payments, lifetime statistics count exactly the payments, and totals add up; which transitions are allowed is `TransitionedIff` |
| `Transitions.TransitionedIff` | src/orders/orders.service.ts:43-302 | a status change succeeds exactly on fifteen pairs of statuses, then adds its history row and nothing else to the orders; only payment counts a completion and a coupon use |
| `Transitions.TransitionedMoves` | src/orders/orders.service.ts:264-299 | payment takes an order's units from reserved to committed, shipping takes them out of the house, a cancellation or refund before shipping puts them back, and no other transition moves any |
| `Transitions.ByTimeoutIff` | src/orders/orders.service.ts:368-374 | a cancelled order may be restored exactly when its last row cancelled it, names no person, and its note contains one of the two phrases |
| `Transitions.RevivedHistory` | src/orders/orders.service.ts:376-400 | an order restored by a late payment has exactly the restore and the payment added to its history |
| `Transitions.ConfirmedRefusal` | src/orders/orders.service.ts:355-376 | a refused confirmation says why: no such order, cancelled by hand, stock gone, or a status no payment leads from |
| `OpenOrders.OneOpenAlwaysIff` | src/checkout/checkout.service.ts:155-317 | whatever is in flight, no cart ever has two open orders exactly when no creation commits on a lookup that has gone stale and no status write or restore reopens an order beside the one that took its place |
| `OpenOrders.CreatedOneOpenIff` | src/checkout/checkout.service.ts:263-317 | a creation leaves the cart one open order exactly when a lookup at that moment would find none |
| `OpenOrders.InitiatedOneOpen` | src/checkout/checkout.service.ts:138-417 | taken as a whole, checkout's first step never duplicates |
| `Witnesses.TwoTabs` | src/checkout/checkout.service.ts:158-317 | one checkout submitted twice ends with two open orders and the cap reserved twice |
| `Lifecycle.CouponUsesInEveryRun` | src/orders/orders.service.ts:286-294 | a coupon's use count is the number of paid orders carrying it |
| `Convergence.MoneyBecomesAPaidOrder` | src/payments/shop-payment.service.ts:319-446 | an open order whose intent succeeded, neither moved by hand nor refunded, ends every run that contains one completed settlement (webhook, reconciliation, sweep, timer, or the last write of a confirmation in flight) paid exactly once, with its units committed and never more than one succeeded-charge row for the intent: exactly one, or that of another succeeded intent of its own which paid it first. Any calls may be in flight whose late writes are harmless and do not rebuild, restore, relink or move this order |
| `Convergence.FiredProgress` | src/checkout/checkout-reservation.processor.ts:46-62 | the timer never moves such an order off track, whichever of its reads of Stripe fail |
| `Convergence.RefundTakesEffectIff` | src/payments/shop-payment.service.ts:560-586 | a refund delivery refunds the order exactly when the event is new, the process survives and the status allows it; otherwise only the ledger changes |
| `Convergence.InterruptedRefundIsLost` | src/payments/shop-payment.service.ts:570-585 | after a crash between ledger row and transition, no number of redeliveries refunds the order |
| `Reservations.DeadlinesCoveredInEveryRun` | src/checkout/checkout.service.ts:399-408 | in every state reached by whole calls an open order built from a cart has a deadline, no deadline of an open order is more than one window ahead, and each has a queued job firing no earlier or its money is at Stripe |
| `Reservations.FiringKeepsJobIff` | src/checkout/checkout-reservation.processor.ts:29-73 | a firing keeps its order's deadline enforced except exactly when the order is past it, Stripe holds the money, the state read succeeds, the settlement's read fails and no other job is left |
| `Witnesses.UnenforcedDeadline` | src/payments/shop-payment.service.ts:408-414 | a run of a sale in which both jobs end that way: open, past its deadline, nothing queued |
| `Holds.UnenforcedIsOnTrack` | src/payments/shop-payment.service.ts:448-472 | an order whose deadline no job enforces has its money at Stripe, so the next completed settlement pays it |
| `Holds.ReservationHolds` | src/checkout/checkout-reservation.processor.ts:40-66 | whatever harmless calls are in flight, an open order with a deadline that nobody moves by hand, whose cart does not come back changed before a payment is started, and that no late write cancels, is not cancelled before that deadline, and its deadline never moves closer while it is open |
| `Holds.FiredHeld` | src/checkout/checkout-reservation.processor.ts:35-66 | before the deadline no firing of any job, for this order or another, cancels the order |
| `Holds.ExtendedHeld` | src/orders/orders.service.ts:327-333 | a fresh window never ends before the one it replaces |
| `Charges.SyncedAlwaysIff` | src/checkout/checkout.service.ts:183-494 | once the payment form has shown an order's total, its intent stays for exactly that total exactly when neither shipping nor a resumption re-totals the order and no money of another amount is settled on it |
| `Charges.MintSyncs` | src/payments/shop-payment.service.ts:168-264 | whatever intent the payment form is given is the order's own and for its total |
| `Charges.ChargedItsTotalIff` | src/payments/shop-payment.service.ts:364-382 | in every interleaving, an order whose own intent the ledger knows was charged exactly its total if and only if the two are in step |
| `Charges.ChargedItsTotal` | src/payments/shop-payment.service.ts:319-382 | so an order nothing put out of step since its form was shown is charged exactly what it costs |
| `Charges.SubtotalsAlwaysIff` | src/checkout/checkout.service.ts:183-230 | in every interleaving each order's subtotal is that of its own lines, all along, exactly when no order is re-priced from a cart that costs something else; resumed as a whole, that takes a payment already started |
| `Witnesses.PaidTooLittle` | src/checkout/checkout.service.ts:424-494 | shipping chosen between the payment and its webhook: paid, for less than the total |
| `Witnesses.PricedForTwo` | src/checkout/checkout.service.ts:183-230 | a second cap added once a payment was started: the order shows the price of two and holds one |
| `Reservations.TimerCancelsIff` | src/checkout/checkout-reservation.processor.ts:29-73 | a due job cancels exactly when its order is open and past its deadline and has no intent, or Stripe can be read and says it needs a method or a confirmation or is cancelled; it puts itself back for ten minutes exactly when, past the deadline, the intent is in processing, needs an action or a capture, or Stripe gives no answer |
| `Reservations.ExpiredOutcome` | src/checkout/checkout-reservation.processor.ts:50-66 | past the deadline, by Stripe's statuses: cancelled when nobody is paying; ten minutes more, with the same job requeued, while a payment may be on its way; else the money is there, and the order is paid, or left as it is without its job when the second read fails |
| `Reservations.DroppedQueueing` | src/checkout/checkout-reservation.processor.ts:35-44 | a job that steps aside was not the one an open deadline relies on |
| `Reservations.ExtendedQueueing` | src/orders/orders.service.ts:327-333 | extending a reservation keeps every deadline covered |
| `OrderInvariants.StaleTransitionIff` | src/orders/orders.service.ts:234-302 | a transition written from a status that may be stale keeps the stock sums exactly when the status has not left its stock bucket since it was read, or the order holds no tracked units |
| `OrderInvariants.NoClampTakesEffect` | src/inventory/inventory.service.ts:266-395 | on a current status no GREATEST(0, …) swallows a unit |
| `OrderInvariants.ConfirmedOutcome` | src/orders/orders.service.ts:355-413 | a confirmation succeeds exactly on paid, open and restorable orders; refused on a processing, shipped, delivered or refunded order it leaves the intent linked and the first expiry job dropped, and refused on any other it changes nothing |
| `OrderInvariants.ConfirmedPays` | src/orders/orders.service.ts:386-400 | a payable order ends paid with exactly one payment in its history and every invariant intact |
| `OrderInvariants.CancelledPayableIff` | src/orders/orders.service.ts:368-384 | a cancelled order can be paid exactly when a timeout or failed payment cancelled it and every variant has enough for all its lines together; `ByTimeoutIff` reads the note |
| `OrderInvariants.InitiatedGood` | src/checkout/checkout.service.ts:138-417 | resuming, rebuilding or creating a checkout keeps stock sums, histories, counts and totals; the prices are `InitiatedPrices`', the units `InitiatedUnits`' |
| `Checkouts.InitiatedPrices` | src/checkout/checkout.service.ts:186-304 | created, rebuilt or resumed, the cart's order carries the coupon and the discounts the promotions engine returned, no shipping, and a total that is its subtotal less all three discounts |
| `Checkouts.InitiatedOutcome` | src/checkout/checkout.service.ts:138-417 | the open order of the cart is resumed, with nothing but prices, coupon and shipping changed, exactly when a payment was started or its lines are the cart's; otherwise it is cancelled and a draft is tried in its place |
| `Checkouts.InitiatedUnits` | src/checkout/checkout.service.ts:172-318 | checkout reserves what the cart needs, a rebuild putting the outdated order's units back first: it is refused for stock exactly when that does not suffice for some variant, and moves exactly those units |
| `Settlements.ConfirmedMoves` | src/orders/orders.service.ts:366-400 | payment takes an order's units from reserved, or from the shelves when its reservation had timed out, into committed |
| `OrderInvariants.PlacedFromCartGood` | src/orders/orders.service.ts:81-230 | so does the one-step order |
| `OrderInvariants.ShippingUpdatedGood` | src/checkout/checkout.service.ts:424-494 | choosing shipping keeps total = subtotal − discounts + tax + shipping, and everything else |
| `OrderInvariants.MadeReadyGood` | src/checkout/checkout.service.ts:562-626 | proceeding to payment keeps every invariant |
| `Orders.FindOpen` | src/checkout/checkout.service.ts:158-163 | finds an open order of the cart exactly when there is one |
| `Orders.OrdersService.Transition` | src/orders/orders.service.ts:234-317 | status, history row and every line's units change together, or the call is refused and nothing changes: the outcome `TransitionedIff`, `TransitionedMoves` and `TransitionedGood` describe |
| `Orders.OrdersService.ConfirmPayment` | src/orders/orders.service.ts:355-413 | restore, link, drop the job and walk to paid leave exactly the state `ConfirmedOutcome` and `ConfirmedPays` describe, refusals included |
| `Orders.OrdersService.MarkPaidManually` | src/orders/orders.service.ts:340-351 | confirms under the order's own intent, or under a manual one naming the trimmed note; `MarkedPaidIsConfirmed` writes both out |
| `Orders.OrdersService.ExtendReservation` | src/orders/orders.service.ts:327-333 | moves the deadline of open orders only, and queues a job for it; `ExtendedOutcome` gives the times |
| `Orders.OrdersService.ReserveLines` | src/checkout/checkout.service.ts:311-318 | all lines reserved, or none and the first refusal |
| `Orders.OrdersService.Initiate` | src/checkout/checkout.service.ts:138-417 | resumes, rebuilds or creates the cart's order, leaving the state `InitiatedOutcome`, `InitiatedPrices` and `InitiatedUnits` describe and `InitiatedGood` keeps sound |
| `Orders.OrdersService.CreateFromCart` | src/orders/orders.service.ts:81-230 | every line reserved and the order created, or the first refusal and no change; `PlacedFromCartGood` is about that state, column by column in `PlacedOutcome` |
| `Orders.OrdersService.UpdateShipping` | src/checkout/checkout.service.ts:424-494 | re-totals the order under the quoted method, before payment only; `ShippingOutcome` gives every refusal and column |
| `Orders.OrdersService.ReadyForPayment` | src/checkout/checkout.service.ts:562-626 | moves a complete draft to awaiting payment, once; `ReadyOutcome` gives every refusal, in order |
| `Inventory.ReservedLinesIff` | src/inventory/inventory.service.ts:214-240 | reserving line by line succeeds exactly when each variant covers the sum of its lines, and then is one movement of each total |
| `Inventory.FirstRefusal` | src/inventory/inventory.service.ts:214-240 | a refused order names the first line that does not fit after the lines before it: no row, or the units left then and the units asked for |
| `Inventory.AppliedOutcome` | src/inventory/inventory.service.ts:214-474 | each kind of movement changes the three columns in its own way and is logged with its order, kind, signed quantity and the columns as they are afterwards |
| `Inventory.MovedLinesRows` | src/orders/orders.service.ts:266-299 | moving lines one by one moves each variant once by its total, clamps included |
| `Inventory.MovedLinesUnits` | src/inventory/inventory.service.ts:266-395 | over a whole order the unit count drifts by exactly what the clamp swallows |
| `Inventory.MovedLinesReplays` | src/inventory/inventory.service.ts:228-391 | every logged availableAfter is the previous one plus the delta, shipping rows excepted |
| `Inventory.InventoryService.ReserveForOrder` | src/inventory/inventory.service.ts:214-240 | the conditional decrement with its log row, or the right refusal and no change |
| `Inventory.InventoryService.ReleaseForOrder` | src/inventory/inventory.service.ts:266-295 | reserved units return to available, clamped and logged |
| `Inventory.InventoryService.CommitForOrder` | src/inventory/inventory.service.ts:302-329 | reserved units become committed, logged with delta 0 |
| `Inventory.InventoryService.ReleaseCommittedForOrder` | src/inventory/inventory.service.ts:335-364 | committed units return to available, clamped and logged |
| `Inventory.InventoryService.ConfirmSale` | src/inventory/inventory.service.ts:368-395 | committed units leave, logged with a negative delta that does not touch available |
| `Inventory.InventoryService.RestockForReturn` | src/inventory/inventory.service.ts:399-434 | returned units become available, logged |
| `Inventory.InventoryService.Adjust` | src/inventory/inventory.service.ts:438-474 | adjusts available, refusing to go below zero; `AdjustedOutcome` gives the boundary |
| `Payments.Minted` | src/payments/shop-payment.service.ts:168-264 | every intent handed to the payment form is the one stored on the order, for exactly its total; a refusal changes nothing but, when Stripe refuses the replacement, the card-only intent cancelled for it |
| `Payments.MintLeavesMoneyAlone` | src/payments/shop-payment.service.ts:188-226 | opening the payment form never re-prices, cancels or unlinks an intent whose money is moving |
| `Payments.PaymentService.MintOrReuseIntent` | src/payments/shop-payment.service.ts:168-264 | reuses, re-syncs, replaces or creates the intent, ending exactly in the world `Minted` promises; `MintedOutcome` says which by Stripe's status |
| `Payments.PaymentService.HandlePaymentSucceeded` | src/payments/shop-payment.service.ts:319-357 | ledger row first, then settlement, also when the row was there and the order is not yet paid; `PayingOutcome` writes row and condition out |
| `Payments.PaymentService.ReconcileOrder` | src/payments/shop-payment.service.ts:402-446 | settles an order still to be paid whose own intent succeeded, and reports the status it leaves and whether this call paid it, as `ReconciledOutcome` writes out |
| `Payments.PaymentService.ReconcilePending` | src/payments/shop-payment.service.ts:452-472 | reconciles each order of the sweep in turn and counts those it settled, each read of Stripe failing on its own |
| `Settlements.ReconciledOutcome` | src/payments/shop-payment.service.ts:402-446 | a reconciliation logs and confirms exactly the money Stripe holds for a draft, awaiting or cancelled order, and counts itself exactly when the charge was new and the order ended paid |
| `Settlements.SweepSettlesAll` | src/payments/shop-payment.service.ts:452-472 | a sweep whose reads succeed pays every order whose money is waiting and counts each once |
| `Payments.PaymentService.IntentState` | src/payments/shop-payment.service.ts:480-497 | what Stripe knows of the order's money, settling it when held if the second read succeeds; which statuses hold the timer back is `TimerCancelsIff` |
| `Payments.PaymentService.HandlePaymentFailed` | src/payments/shop-payment.service.ts:499-533 | a new failed attempt is logged and restarts the reservation; the order stays open; `FailedOutcome` writes the row out |
| `Payments.PaymentService.HandleChargeRefunded` | src/payments/shop-payment.service.ts:560-586 | a new refund event is logged and refunds the order, as `RefundedOutcome` writes out status by status |
| `Payments.PaymentService.RecordTransaction` | src/payments/shop-payment.service.ts:591-599 | inserts a row once per key and says whether it was new |
| `Payments.ReservationProcessor.Process` | src/checkout/checkout-reservation.processor.ts:29-73 | one firing ends in the world `TimerCancelsIff`, `ExpiredOutcome` and `FiredHeld` are about, told apart by Stripe's statuses |
| `Cart.BestTier` | src/pricing/variant-price.util.ts:58-65 | the highest active tier reached, the first of its threshold, or none |
| `CartPrices.UnitPriceIs` | src/pricing/variant-price.util.ts:8-77 | a quantity costs the top active tier it reaches on an upselling product, even where the variant has a price of its own, and otherwise that price, or base and adjustments, refused when negative |
| `CartPrices.SessionPrices` | src/cart/cart.service.ts:658-699 | after any session each line costs what the tiers say for all units of its product in the cart, plus its own embroidery fee |
| `CartPrices.ThirdCap` | src/pricing/variant-price.util.ts:67-77 | a cap at 2000 with a tier of 1500 from three on: two cost 2000 each, three 1500 |
| `Cart.TierQuantities` | src/pricing/variant-price.util.ts:82-88 | the total quantity of each product over all lines |
| `Cart.VerifyPrices` | src/orders/orders.service.ts:657-717 | accepts a cart exactly when every stored price is the one recomputed from the product's total quantity |
| `CartInvariants.SessionSound` | src/cart/cart.service.ts:135-724 | after any sequence of adds, updates, removals and design changes, refused ones included, no two lines share variant and design and every stored price is the recomputed one |
| `CartInvariants.CheckoutAccepts` | src/orders/orders.service.ts:657-717 | so checkout never finds a changed price on a fixed catalogue |
| `CartInvariants.RepricedSettles` | src/cart/cart.service.ts:658-699 | repricing one product settles all its lines, whatever the others stored |
| `CartInvariants.AddedUnits` | src/cart/cart.service.ts:196-272 | an add grows exactly its own variant and design by exactly its quantity |
| `CartPrices.AddedRefusal` | src/cart/cart.service.ts:135-272 | an add is refused in eight cases, in this order, and then changes nothing |
| `CartPrices.AddedLeaves` | src/cart/cart.service.ts:196-272 | an accepted add grows the line it joins or appends one, with the fee of its embroidery, and changes no other line but in price |
| `CartPrices.UpdatedRefusal` | src/cart/cart.service.ts:574-620 | on any basket a new quantity is refused for missing stock, a line the catalogue has lost and a negative price, and then changes nothing |
| `CartPrices.UpdatedLeaves` | src/cart/cart.service.ts:574-642 | after any session a quantity of one or more is refused for missing stock alone; otherwise that line has it and only prices change besides |
| `CartInvariants.PersonalisedConserves` | src/cart/cart.service.ts:470-513 | personalising succeeds exactly when every group of designs fits in stock, and conserves every variant's units |
| `CartInvariants.RefusedPersonalisation` | src/cart/cart.service.ts:499-501 | refused at group k, the cart is unchanged exactly when k is the first; otherwise it holds the earlier groups' units twice |
| `CartInvariants.FourthCap` | src/cart/cart.service.ts:499-501 | three caps, one design for one and another for two, stock for one: refused, and the cart holds four |
| `CartInvariants.RedesignedConserves` | src/cart/cart.service.ts:533-548 | replacing a design conserves every variant's units, and a refusal changes nothing |
| `CartInvariants.DesignRemovedConserves` | src/cart/cart.service.ts:554-564 | so does removing one |
| `CartDesigns.RedesignedLeaves` | src/cart/cart.service.ts:533-548 | replacing a design puts every unit of the line, and no other, on the new one, or is refused, or does nothing for the same design |
| `CartDesigns.DesignRemovedLeaves` | src/cart/cart.service.ts:554-564 | removing a design puts every unit of the line back among the plain ones |
| `CartDesigns.PersonalisedLeaves` | src/cart/cart.service.ts:470-513 | personalised, each design has as many more units as asked for it and the plain ones are fewer by their number; four refusals change nothing |
| `CartInvariants.GroupedOk` | src/cart/cart.service.ts:487-495 | grouping puts every unit in exactly one group and gives each design one group |
| `Cart.CartService.AddItem` | src/cart/cart.service.ts:135-228 | merges or appends, then settles the product, or refuses and changes nothing; `AddedRefusal`, `AddedLeaves` and `SessionPrices` are about that basket |
| `Cart.CartService.UpdateItem` | src/cart/cart.service.ts:574-642 | a quantity below one removes the line; otherwise line and product are re-priced together; `UpdatedRemoves`, `UpdatedRefusal`, `UpdatedLeaves` and `SessionPrices` are about that basket |
| `Cart.CartService.RemoveItem` | src/cart/cart.service.ts:701-724 | drops the line and settles what remains of its product; `RemovedLeaves` says what is left |
| `Cart.CartService.PersonaliseItem` | src/cart/cart.service.ts:470-513 | groups, adds group by group, then takes the plain units off, ending in the basket `PersonalisedLeaves`, `PersonalisedConserves` and `RefusedPersonalisation` are about |
| `Cart.CartService.ReplaceItemDesign` | src/cart/cart.service.ts:533-548 | adds the new line before the old one goes, ending in the basket `RedesignedLeaves` is about |
| `Cart.CartService.RemoveItemDesign` | src/cart/cart.service.ts:554-564 | takes the embroidery off, ending in the basket `DesignRemovedLeaves` is about |
| `Cart.CartService.RepriceProductLines` | src/cart/cart.service.ts:658-699 | every line of the product carries the price of their combined quantity, other lines are untouched |
| `CartMatch.SameLinesIff` | src/checkout/checkout.service.ts:86-100 | the sorted comparison holds exactly when the signatures form the same multiset |
| `CartMatch.SameLinesComparesStoredLines` | src/checkout/checkout.service.ts:86-100 | with one design per placement the comparison holds exactly when cart and order store the same lines, whatever order lines and designs are listed in |
| `CartMatch.SignatureIff` | src/checkout/checkout.service.ts:87-95 | two signatures agree exactly when the stored lines do |
| `CartMatch.OutdatedIff` | src/checkout/checkout.service.ts:172-181 | an order is rebuilt exactly when no payment was started and the comparison fails, for any listings of the two |
| `RefreshTokens.OneWinnerPerToken` | src/auth/auth.service.ts:99-107 | over every interleaving a token is claimed by at most one request, with one replacement |
| `RefreshTokens.RacesAreHarmless` | src/auth/auth.service.ts:99-140 | without logouts and with losers re-reading inside the window, nobody reaches the revoke-all branch and each claimed token has exactly one winner, whose replacement its row records |
| `RefreshTokens.GrantedSessionsStayLive` | src/auth/auth.service.ts:105-130 | in such runs every session handed out is unrevoked until it is itself rotated, and belongs to the same administrator; how long it lasts is `SessionLastsIff` |
| `RefreshTokens.SessionLastsIff` | src/auth/auth.service.ts:17-178 | a token issued by a login or a grant buys the next session at every time up to 1,296,000,000 ms after its issue and none later, whatever happens in between that neither rotates nor revokes it |
| `RefreshTokens.IssuedTo` | src/auth/auth.service.ts:105-178 | exactly logins, claimed requests and excused ones issue a token, each to its own administrator |
| `RefreshTokens.LoggedOutForGood` | src/auth/auth.service.ts:83-159 | a token logged out before it was rotated is never good for a session again |
| `RefreshTokens.RefreshedAloneIff` | src/auth/auth.service.ts:83-140 | an uninterrupted refresh, written out over the token's row: refused for an unknown, foreign or expired token; granted, with fifteen days, for an unrevoked one or one rotated less than 30 seconds ago; any other revokes exactly the subject's unrevoked tokens |
| `RefreshTokens.ReuseDetectedIff` | src/auth/auth.service.ts:109-159 | replaying a rotated, unexpired token is detected exactly when the window has passed since its rotation and since every logout with it |
| `RefreshTokens.RevocationIsFinalIff` | src/auth/auth.service.ts:133-140 | revoking a family leaves no live session, and none can appear until the administrator logs in, or out with a token of theirs, exactly when no request of theirs is granted but not issued and no token rotated inside the window can still be replayed |
| `RefreshTokens.HopelessForever` | src/auth/auth.service.ts:83-89 | a request with an expired or another's token is refused in every continuation and never reaches the revoke-all branch |
| `RefreshTokens.RunKeepsInv` | src/auth/auth.service.ts:71-178 | in every run, replaced implies revoked, winners and rows agree, and replacement ids are never shared |
| `RefreshTokens.AuthService.Claim` | src/auth/auth.service.ts:99-107 | revokes and records the replacement in one conditional update, or loses |
| `RefreshTokens.AuthService.Recheck` | src/auth/auth.service.ts:113-131 | a loser is excused inside the window and suspected outside it |
| `RefreshTokens.AuthService.Logout` | src/auth/auth.service.ts:144-159 | revokes the token, moving the time of an earlier revocation |
| `MediaFolders.RunForest` | src/media/media.service.ts:474-572 | after any creates, moves and deletes every folder reaches the root, every asset is placed, and no asset is lost |
| `MediaFolders.MoveSafeIff` | src/media/media.service.ts:508-536 | re-parenting keeps a forest exactly when the target lies outside the moved subtree, which is what the refusal tests |
| `MediaFolders.MovedIff` | src/media/media.service.ts:501-537 | on a forest a move succeeds exactly when folder and target are known and the result is a forest, and then changes that one parent; each refusal has its error |
| `MediaFolders.DeletedFolders` | src/media/media.service.ts:557-571 | a deletion hangs the subfolders under the folder's parent, or at the root, and moves no other folder |
| `MediaFolders.MediaService.WalkFinds` | src/media/media.service.ts:520-532 | the walk decides subtree membership on any data and ends even on cycles |
| `MediaFolders.MediaService.MoveFolder` | src/media/media.service.ts:501-537 | moves the folder or refuses with the right error and no change |
| `MediaFolders.MediaService.CreateFolder` | src/media/media.service.ts:474-490 | files a folder under an existing parent or the root |
| `MediaFolders.MediaService.DeleteFolder` | src/media/media.service.ts:557-572 | lifts assets and subfolders, then deletes |
| `MediaFolders.MovedChains` | src/media/media.service.ts:501-537 | a move gives the moved subtree its new way up and changes no other folder's ancestors |
| `MediaFolders.DeletedChain` | src/media/media.service.ts:557-572 | a deletion leaves every other folder's ancestor chain as it was with that folder erased |
| `MediaFolders.DeletedAssets` | src/media/media.service.ts:562-565 | the folder's assets sit in its parent or the root, all others stay, none is lost |
| `MediaFolders.DeletedForest` | src/media/media.service.ts:562-571 | the folders form a forest after each of the three statements |
| `SvgArtwork.ScanDrawsTheTree` | src/personalization/svg-artwork.ts:347-444 | on every balanced element tree the loop's shapes, flags and errors are those of a recursive drawing that hides definitions and text and gives each shape the nearest paint and all transforms of its groups, the root group twice; what the paint is, is `FileIsPainted` |
| `SvgCascade.FileIsPainted` | src/personalization/svg-artwork.ts:347-444 | read off the file: it is refused exactly for a gradient, an unreadable colour, an unreadable path, or more than 400 shapes; otherwise the shapes are the visible elements that show, in order, each coloured by its style, else the sheet's last word, else its attribute, else the nearest group that declares a paint, else black |
| `SvgCascade.OwnFillIff` | src/personalization/svg-artwork.ts:417-423 | the paint an element declares is its style's, else that of the sheet's selector which overrides all others that apply (id over class over tag, later over earlier), else its attribute's |
| `SvgCascade.CssFillIsTheLastWord` | src/personalization/svg-artwork.ts:154-196 | the rule picked from the table is the selector no other overrides, by its place in the file's own rules |
| `SvgCascade.FileFlags` | src/personalization/svg-artwork.ts:404-412 | the text and picture flags are set exactly when the file has such an element that nothing hides |
| `SvgArtwork.RootTransformCountsOnceIff` | src/personalization/svg-artwork.ts:349-402 | counting the root group once gives the same result exactly when the root has no transform, the file is refused, or no shape carries a transform |
| `SvgInheritance.FileSourcesIff` | src/personalization/svg-artwork.ts:389-423 | the reader takes every shape's paint and transforms from the elements that surround it exactly when the root moves nothing, no enclosing element but groups moves a shape, and none but groups paints one |
| `SvgInheritance.ScanHandsDown` | src/personalization/svg-artwork.ts:347-444 | on those files the scan is the drawing in which every enclosing element hands on its paint and its transform, once |
| `SvgInheritance.PlacementIff` | src/personalization/svg-artwork.ts:233-239 | under a root that does not move, a shape is placed right exactly when no other element than groups moves it, or its transform is too long to be carried either way |
| `SvgInheritance.StrayTransformsShowIff` | src/personalization/svg-artwork.ts:389-439 | when every shape is painted by the right element and the root does not move, the result equals the drawing in which every enclosing element counts exactly when that drawing is refused, or every shape drawn is moved by groups alone or carries no transform in either |
| `SvgInheritance.ScaledRoot` | src/personalization/svg-artwork.ts:350-402 | a disc under a scaled root is scaled twice by the reader and once by SVG |
| `SvgInheritance.MovedLink` | src/personalization/svg-artwork.ts:413-415 | a disc inside a moved link stays where it was |
| `SvgInheritance.FaultsCancel` | src/personalization/svg-artwork.ts:350-415 | a doubled root and a dropped link with the same transform give the right string from the wrong elements |
| `SvgArtwork.Scan` | src/personalization/svg-artwork.ts:347-444 | the loop with its stack and skip counter computes, on unbalanced input too, the scan that `ScanDrawsTheTree` and `FileIsPainted` interpret |
| `SvgArtwork.SkipsNode` | src/personalization/svg-artwork.ts:369-383 | a whole subtree met while skipping changes nothing and restores the counter |
| `SvgArtwork.ScansNode` | src/personalization/svg-artwork.ts:364-439 | a subtree's tags put exactly its marks on the canvas and leave the stack as it was |
| `SvgArtwork.PutAllIff` | src/personalization/svg-artwork.ts:423-443 | a drawing succeeds exactly when nothing is refused and at most 400 shapes are filled, and then holds them all in order |
| `SvgArtwork.CssFillIsTheCascade` | src/personalization/svg-artwork.ts:186-196 | the stylesheet's fill is that of the most specific matching rule, the latest of equals |
| `SvgArtwork.CssFill` | src/personalization/svg-artwork.ts:186-196 | the loop finds the rule that no matching rule beats |
| `SvgArtwork.ReadStylesheet` | src/personalization/svg-artwork.ts:154-183 | rules come out in sheet order, numbered by position, with the specificity of their selector |
| `SvgArtwork.JoinedAppend` | src/personalization/svg-artwork.ts:234-239 | joining transforms group by group and joining them at once agree |
| `Placeholders.RoundTripIff` | src/ai/free-translate.service.ts:294-325 | an untouched text with no token character comes back with all its tags exactly when no attribute holds a `>` |
| `Placeholders.RestoredPieces` | src/ai/free-translate.service.ts:316-325 | however tokens are moved, repeated or dropped, every surviving one becomes its own tag and every unknown one stays |
| `Placeholders.RestoredToken` | src/ai/free-translate.service.ts:316-325 | a token with a known number becomes that tag, opening or closing; one with an unknown number stays |
| `Placeholders.RestoredOther` | src/ai/free-translate.service.ts:316-325 | where no token starts, the text stays as it is |
| `Placeholders.TokensAreSpelled` | src/ai/free-translate.service.ts:309-310 | tokens are printed in brackets with their number, without leading zeros, and a slash when closing |
| `Placeholders.BuildPlaceholderText` | src/ai/free-translate.service.ts:294-313 | prints the block's pieces in order and appends one tag per inline element |
| `Placeholders.OpeningTagKeptIff` | src/ai/free-translate.service.ts:306-308 | the stored opening tag is the element's own without a `>` in its attributes, and shorter with one |
| `Placeholders.BracketInAttribute` | src/ai/free-translate.service.ts:294-325 | an element with a `>` in an attribute that does not survive |
| `Placeholders.ValueOfDigits` | src/ai/free-translate.service.ts:309-320 | printing an index and reading it back agree, for any number of digits |
| `Newsletter.MailsInEveryRun` | src/newsletter/newsletter-campaign.processor.ts:77-118 | over any number of attempts an address gets at most one mail more than the crashes between its mail and its status, exactly one more when its row says sent |
| `Newsletter.MailsWithinAttempts` | src/newsletter/newsletter-campaign.processor.ts:55-75 | when the last of n attempts completes, nobody was mailed more than n times |
| `Newsletter.RowsTellTheTruth` | src/newsletter/newsletter-campaign.processor.ts:77-118 | a row says sent exactly of an address whose mail was delivered, and failed exactly of one whose send was refused or went unrecorded |
| `Newsletter.CampaignWorker.Process` | src/newsletter/newsletter-campaign.processor.ts:53-68 | an attempt ends, mails pending recipients only, and unless the worker is lost leaves nobody of the audience pending |
| `Newsletter.CampaignWorker.MaterializeRecipients` | src/newsletter/newsletter-campaigns.service.ts:249-266 | every subscriber of the audience gets a pending row, known rows stay as they are |
| `Newsletter.IterateSubscribers` | src/newsletter/newsletter-segmentation.service.ts:73-90 | the pages of an unchanging audience are its rows, each once and in order, in non-empty batches of at most the size |

## Left out

- Orders.OrdersService.CreateFromCart: completing the cart and upserting the customer are not modelled; such an order carries no cart token and no deadline, so no expiry job covers it until a payment intent is minted.
- Orders.OrdersService.ConfirmPayment: closing the cart and emitting events are not modelled.
- Payments.Minted: creating the intent at Stripe and storing it are one step, so Stripe's idempotency keys have nothing to protect and are not modelled.
- Payments.PaymentService.HandleChargeRefunded: the order found under the charge's intent is a parameter, since several orders could carry one intent.
- Payments.PaymentService.ReconcilePending: which fifty orders the sweep picks is a parameter.
- Payments.ReservationProcessor.Process: its retries and the failed-payment announcement are not modelled; the job leaves the queue or is put back.
- Convergence.MoneyBecomesAPaidOrder: assumes no administrator, return or refund touches this order meanwhile; payment events may be emitted more than once and are not counted.
- Interleavings.StockAlwaysIff: the timer, updateShipping, minting, createFromCart and payments recorded by hand are whole calls in it.
- OrderInvariants.InitiatedGood: contact, address, phone verification, artwork and send-in jobs are not modelled.
- Orders.OrdersService.ReadyForPayment: the re-read pickup point written back to the order is not modelled; whether it is still offered is a parameter.
- Orders.OrdersService.UpdateShipping: the pickup point kept or discarded with the method is not modelled; the quote is a parameter.
- Inventory: rows are neither created nor deleted while the shop runs, and low-stock alerts are not modelled.
- Coupon counters: a promotion row is taken to exist for every code, so a use is counted per paid order rather than per matching row.
- CartInvariants.SessionSound: the catalogue is fixed and prices are naturals; option snapshots, images, previews, tracking and expired carts are not modelled.
- CartInvariants.PersonalisedConserves: each unit's design is taken to resolve to a non-empty hash.
- CartMatch.SameLinesComparesStoredLines: that different values have different JSON, and that the collation tells different placement keys apart, are hypotheses.
- RefreshTokens.RacesAreHarmless: tokens are unforgeable ids and request signatures are taken as checked; access tokens, one-time codes and cookies are not modelled.
- MediaFolders.RunForest: each call is one step, and empty parent ids, names, thumbnails, renames and usage tracking are not modelled.
- SvgInheritance.ScanHandsDown: which elements SVG draws at all is not modelled: the conditions of a switch, and shapes nested in shapes or in unknown elements, are drawn as the reader draws them.
- SvgArtwork.Scan: tokenising text, attribute syntax, colour syntax, path data, shape geometry, the view box, the silhouette path and the final limits on its length and aspect ratio are not modelled; running out of stack stands for the type error the source would raise.
- SvgArtwork.ReadStylesheet: finding declarations in the text of style elements is not modelled.
- Placeholders.BuildPlaceholderText: the HTML parser and serialiser are not modelled; nested inline elements contribute their text only, as in the source.
- Newsletter.CampaignWorker.Process: campaign status, cancellation, pacing and mail contents are not modelled, and two workers never run one campaign at once.
- Newsletter.IterateSubscribers: the audience does not change between pages.
- The signed-URL cache (`src/asset-url/asset-url.service.ts`), whose properties would be short case analyses.
- Controllers, notifications, emails, PDFs, analytics queries, translations, settings, seeds and contacts.
