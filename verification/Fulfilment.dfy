/**
 * Whole lives of an order, step by step from the basket on: bought, shipped
 * and delivered; timed out and paid late; cancelled by hand and paid in vain.
 */
module Fulfilment {
  import opened Common
  import opened Inventory
  import opened Orders
  import opened OrderInvariants
  import opened Payments
  import opened Lifecycle
  import opened Reservations
  import opened Transitions
  import opened Checkouts
  import opened Settlements

  /** One variant's row against an earlier book: so many on the shelves, reserved, committed and gone out of the house. */
  predicate RowMoved(b0: Book, b: Book, v: Variant, available: int, reserved: int, committed: int, shipped: int) {
    && v in b0.rows && v in b.rows
    && b.rows[v].available == b0.rows[v].available + available
    && b.rows[v].reserved == b0.rows[v].reserved + reserved
    && b.rows[v].committed == b0.rows[v].committed + committed
    && NetShipped(b.log, v) == NetShipped(b0.log, v) + shipped
  }

  /** Nothing but this order, its units, the queue and the clock differ. */
  predicate OnlyOrder(w: World, w': World, id: nat, o: Order) {
    && id < |w.shop.orders| && w'.shop.orders == w.shop.orders[id := o]
    && w'.ledger == w.ledger && w'.stripe == w.stripe
    && w'.shop.completions == w.shop.completions && w'.shop.couponUses == w.shop.couponUses
  }

  function Moved(o: Order, to: Status, note: string, admin: Option<string>): Order {
    o.(status := to, history := o.history + [HistoryRow(Some(o.status), to, note, admin)])
  }

  // ── Shipped and delivered ──────────────────────────────────────────────

  /** What an administrator's status change leaves behind; shipping takes d units out of the house. */
  ghost predicate AdminMoved(opening: map<Variant, int>, w: World, w': World, id: nat, to: Status, note: string, admin: string) {
    && GoodWorld(opening, w') && id < |w.shop.orders|
    && OnlyOrder(w, w', id, Moved(w.shop.orders[id], to, note, Some(admin)))
  }

  lemma AdminMoves(opening: map<Variant, int>, w: World, w': World, id: nat, to: Status, note: string, admin: string)
    requires GoodWorld(opening, w) && id < |w.shop.orders| && w' == Next(w, AdminStep(id, to, note, admin))
    requires May(w.shop.orders[id].status, to) && to in {Processing, Shipped, Delivered, Cancelled}
    ensures AdminMoved(opening, w, w', id, to, note, admin)
  {
    NextGood(opening, w, AdminStep(id, to, note, admin));
    TransitionedIff(w.shop, id, to, note, Some(admin));
  }

  lemma AdminUnits(opening: map<Variant, int>, w: World, w': World, id: nat, to: Status, note: string, admin: string, v: Variant, d: int)
    requires GoodWorld(opening, w) && id < |w.shop.orders| && w' == Next(w, AdminStep(id, to, note, admin))
    requires May(w.shop.orders[id].status, to) && to in {Processing, Shipped, Delivered}
    requires v in w.shop.book.rows && d == Demand(w.shop.orders[id].lines, v)
    ensures RowMoved(w.shop.book, w'.shop.book, v, 0, 0, if to == Shipped then -d else 0, if to == Shipped then d else 0)
  {
    TransitionedMoves(opening, w.shop, id, to, note, Some(admin), v);
  }

  /** The steps of a paid order on its way to the customer. */
  ghost predicate Handled(w: World, w1: World, w2: World, w3: World, id: nat, notes: seq<string>, admin: string)
    requires |notes| == 3
  {
    && w1 == Next(w, AdminStep(id, Processing, notes[0], admin))
    && w2 == Next(w1, AdminStep(id, Shipped, notes[1], admin))
    && w3 == Next(w2, AdminStep(id, Delivered, notes[2], admin))
  }

  function DeliveredOrder(o: Order, notes: seq<string>, admin: string): Order
    requires |notes| == 3
  {
    o.(status := Delivered,
       history := o.history + [HistoryRow(Some(Paid), Processing, notes[0], Some(admin)),
                               HistoryRow(Some(Processing), Shipped, notes[1], Some(admin)),
                               HistoryRow(Some(Shipped), Delivered, notes[2], Some(admin))])
  }

  lemma HandledOrder(opening: map<Variant, int>, w: World, w1: World, w2: World, w3: World, id: nat, notes: seq<string>, admin: string)
    requires GoodWorld(opening, w) && id < |w.shop.orders| && w.shop.orders[id].status == Paid && |notes| == 3
    requires Handled(w, w1, w2, w3, id, notes, admin)
    ensures AdminMoved(opening, w, w1, id, Processing, notes[0], admin)
    ensures AdminMoved(opening, w1, w2, id, Shipped, notes[1], admin)
    ensures AdminMoved(opening, w2, w3, id, Delivered, notes[2], admin)
  {
    AdminMoves(opening, w, w1, id, Processing, notes[0], admin);
    AdminMoves(opening, w1, w2, id, Shipped, notes[1], admin);
    AdminMoves(opening, w2, w3, id, Delivered, notes[2], admin);
  }

  lemma DeliveredInOrder(opening: map<Variant, int>, w: World, w1: World, w2: World, w3: World, id: nat, notes: seq<string>, admin: string)
    requires id < |w.shop.orders| && w.shop.orders[id].status == Paid && |notes| == 3
    requires AdminMoved(opening, w, w1, id, Processing, notes[0], admin)
    requires AdminMoved(opening, w1, w2, id, Shipped, notes[1], admin)
    requires AdminMoved(opening, w2, w3, id, Delivered, notes[2], admin)
    ensures OnlyOrder(w, w3, id, DeliveredOrder(w.shop.orders[id], notes, admin))
  {
    var o, o3 := w.shop.orders[id], w3.shop.orders[id];
    assert o3.history == DeliveredOrder(o, notes, admin).history;
    assert o3 == DeliveredOrder(o, notes, admin);
  }

  lemma HandledUnits(opening: map<Variant, int>, w: World, w1: World, w2: World, w3: World, id: nat, notes: seq<string>, admin: string,
                     v: Variant, d: int)
    requires GoodWorld(opening, w) && id < |w.shop.orders| && w.shop.orders[id].status == Paid && |notes| == 3
    requires Handled(w, w1, w2, w3, id, notes, admin)
    requires v in w.shop.book.rows && d == Demand(w.shop.orders[id].lines, v)
    ensures RowMoved(w.shop.book, w1.shop.book, v, 0, 0, 0, 0)
    ensures RowMoved(w1.shop.book, w2.shop.book, v, 0, 0, -d, d)
    ensures RowMoved(w2.shop.book, w3.shop.book, v, 0, 0, 0, 0)
  {
    HandledOrder(opening, w, w1, w2, w3, id, notes, admin);
    AdminUnits(opening, w, w1, id, Processing, notes[0], admin, v, d);
    AdminUnits(opening, w1, w2, id, Shipped, notes[1], admin, v, d);
    AdminUnits(opening, w2, w3, id, Delivered, notes[2], admin, v, d);
  }

  lemma RowMovedThen(b0: Book, b1: Book, b2: Book, v: Variant, a: int, r: int, c: int, n: int, a': int, r': int, c': int, n': int)
    requires RowMoved(b0, b1, v, a, r, c, n) && RowMoved(b1, b2, v, a', r', c', n')
    ensures RowMoved(b0, b2, v, a + a', r + r', c + c', n + n')
  {
  }

  /**
   * From any sound shop a paid order taken by a person through processing and
   * shipping ends delivered; its units leave committed, and the house.
   */
  lemma PaidIsDelivered(opening: map<Variant, int>, w: World, w1: World, w2: World, w3: World, id: nat, notes: seq<string>, admin: string,
                        v: Variant, d: int)
    requires GoodWorld(opening, w) && id < |w.shop.orders| && w.shop.orders[id].status == Paid && |notes| == 3
    requires Handled(w, w1, w2, w3, id, notes, admin)
    requires v in w.shop.book.rows && d == Demand(w.shop.orders[id].lines, v)
    ensures GoodWorld(opening, w3) && OnlyOrder(w, w3, id, DeliveredOrder(w.shop.orders[id], notes, admin))
    ensures RowMoved(w.shop.book, w3.shop.book, v, 0, 0, -d, d)
  {
    HandledOrder(opening, w, w1, w2, w3, id, notes, admin);
    DeliveredInOrder(opening, w, w1, w2, w3, id, notes, admin);
    HandledUnits(opening, w, w1, w2, w3, id, notes, admin, v, d);
    RowMovedThen(w.shop.book, w1.shop.book, w2.shop.book, v, 0, 0, 0, 0, 0, 0, -d, d);
    RowMovedThen(w.shop.book, w2.shop.book, w3.shop.book, v, 0, 0, -d, d, 0, 0, 0, 0);
  }

  // ── From the basket to payment ─────────────────────────────────────────

  /** A checkout that finds no open order and enough stock. */
  ghost predicate FirstCheckout(opening: map<Variant, int>, w: World, c: Cart) {
    GoodWorld(opening, w) && c.lines != [] && FindOpen(w.shop.orders, c.token).None? && Covers(w.shop.book, c.lines)
  }

  lemma CheckoutMoves(opening: map<Variant, int>, w: World, w': World, c: Cart, p: Pricing, lag: nat)
    requires FirstCheckout(opening, w, c) && w' == Next(w, InitiateStep(Some(c), p, true, lag))
    ensures GoodWorld(opening, w')
    ensures |w'.shop.orders| == |w.shop.orders| + 1 && w'.shop.orders == w.shop.orders + [w'.shop.orders[|w.shop.orders|]]
    ensures DraftedAs(w'.shop.orders[|w.shop.orders|], c, p, w.shop.now)
    ensures w'.ledger == w.ledger && w'.stripe == w.stripe
    ensures w'.shop.completions == w.shop.completions && w'.shop.couponUses == w.shop.couponUses
    ensures w'.shop.book == MovedLines(w.shop.book, OrderPlaced, c.lines, |w.shop.orders|)
  {
    NextGood(opening, w, InitiateStep(Some(c), p, true, lag));
    InitiatedOutcome(w.shop, c, p, true, lag);
    DraftPlacedOutcome(w.shop, c, p, true, lag);
  }

  lemma PlacedUnits(b: Book, lines: seq<Line>, id: nat, v: Variant, d: int)
    requires v in b.rows && d == Demand(lines, v)
    ensures RowMoved(b, MovedLines(b, OrderPlaced, lines, id), v, -d, d, 0, 0)
  {
    MovedLinesRow(b, OrderPlaced, lines, id, v);
    MovedLinesShipped(b, OrderPlaced, lines, id, v);
  }

  /** The draft once shipping is chosen. */
  function Quoted(o: Order, q: Quote): Order {
    o.(shippingMethod := q.shippingMethod,
       money := o.money.(shipping := q.cents,
                         total := o.money.subtotal - o.money.categoryDiscount - o.money.discount + o.money.tax + q.cents))
  }

  lemma ShippingMoves(opening: map<Variant, int>, w: World, w': World, id: nat, q: Quote)
    requires GoodWorld(opening, w) && id < |w.shop.orders| && w.shop.orders[id].status == Draft && w' == Next(w, ShippingStep(id, Some(q)))
    ensures GoodWorld(opening, w') && OnlyOrder(w, w', id, Quoted(w.shop.orders[id], q)) && w'.shop.book == w.shop.book
  {
    NextGood(opening, w, ShippingStep(id, Some(q)));
    ShippingOutcome(w.shop, id, Some(q));
  }

  lemma ReadyMoves(opening: map<Variant, int>, w: World, w': World, id: nat)
    requires GoodWorld(opening, w) && id < |w.shop.orders| && w.shop.orders[id].status == Draft && w.shop.orders[id].shippingMethod.Some?
    requires w' == Next(w, ReadyStep(id, true, false, true))
    ensures GoodWorld(opening, w')
    ensures OnlyOrder(w, w', id, Moved(w.shop.orders[id], AwaitingPayment, "Customer proceeded to payment", None))
    ensures w'.shop.book == w.shop.book
  {
    NextGood(opening, w, ReadyStep(id, true, false, true));
    ReadyOutcome(w.shop, id, true, false, true);
  }

  const ALL_UP := Gateway(true, true, true)

  /** The payment form opened on an order without an intent. */
  lemma MintMoves(opening: map<Variant, int>, w: World, w': World, id: nat, i: string, lag: nat)
    requires GoodWorld(opening, w) && id < |w.shop.orders| && i !in w.stripe && w' == Next(w, MintStep(id, i, true, ALL_UP, lag))
    requires w.shop.orders[id].status == AwaitingPayment && w.shop.orders[id].paymentIntent.None?
    ensures var o := w.shop.orders[id];
            && GoodWorld(opening, w')
            && w'.shop.orders == w.shop.orders[id := o.(paymentIntent := Some(i), expiresAt := Some(w.shop.now + 900_000))]
            && w'.stripe == w.stripe[i := Intent(NeedsMethod, o.money.total, true, Some(id))]
            && w'.ledger == w.ledger && w'.shop.book == w.shop.book
            && w'.shop.completions == w.shop.completions && w'.shop.couponUses == w.shop.couponUses
  {
    NextGood(opening, w, MintStep(id, i, true, ALL_UP, lag));
    MintedOutcome(w, id, i, true, ALL_UP, lag);
    ExtendedOutcome(w.shop.(orders := w.shop.orders[id := w.shop.orders[id].(paymentIntent := Some(i))]), id, lag);
  }

  lemma CustomerPays(opening: map<Variant, int>, w: World, w': World, i: string)
    requires GoodWorld(opening, w) && i in w.stripe && w.stripe[i].status !in {Succeeded, Canceled} && w' == Next(w, StripeStep(i, Succeeded))
    ensures GoodWorld(opening, w') && w' == w.(stripe := w.stripe[i := w.stripe[i].(status := Succeeded)])
  {
    NextGood(opening, w, StripeStep(i, Succeeded));
  }

  /** Stripe announces the money of an order still to be paid. */
  ghost predicate Announced(opening: map<Variant, int>, w: World, w': World, id: nat, i: string) {
    && GoodWorld(opening, w) && Payable(w.shop, id)
    && i in w.stripe && w.stripe[i].status == Succeeded && w.stripe[i].order == Some(id) && ForIntent(i) !in w.ledger
    && w' == Next(w, WebhookStep(i, false))
  }

  lemma WebhookMoves(opening: map<Variant, int>, w: World, w': World, id: nat, i: string)
    requires Announced(opening, w, w', id, i)
    ensures GoodWorld(opening, w') && w'.shop == Confirmed(w.shop, id, i).shop && w'.stripe == w.stripe
    ensures w'.ledger == w.ledger[ForIntent(i) := LedgerRow(id, i, Charge, true, w.stripe[i].amount)]
  {
    NextGood(opening, w, WebhookStep(i, false));
    PayingOutcome(w, i, w.stripe[i], false);
  }

  /** The counts after a payment. */
  lemma ConfirmedOnce(opening: map<Variant, int>, s: Shop, id: nat, i: string)
    requires Good(opening, s) && id < |s.orders| && s.orders[id].status == AwaitingPayment
    ensures var s', o := Confirmed(s, id, i).shop, s.orders[id];
            && s'.orders == s.orders[id := Moved(o, Paid, "Payment confirmed", None).(paymentIntent := Some(i))]
            && s'.completions == s.completions + multiset{id}
            && s'.couponUses == if o.coupon.Some? then s.couponUses + multiset{o.coupon.value} else s.couponUses
  {
    ConfirmedPays(opening, s, id, i);
    ConfirmedHistory(opening, s, id, i);
    assert s.orders[id].history + [] == s.orders[id].history;
  }

  // ── Bought ─────────────────────────────────────────────────────────────

  /** The worlds a list of steps goes through. */
  ghost predicate Trace(ws: seq<World>, steps: seq<Step>) {
    |ws| == |steps| + 1 && forall k :: 0 <= k < |steps| ==> ws[k + 1] == Next(ws[k], steps[k])
  }

  datatype Purchase = Purchase(cart: Cart, pricing: Pricing, quote: Quote, intent: string)

  /** Checkout, shipping, on to payment. */
  function CheckoutSteps(buy: Purchase, id: nat, lag: nat): seq<Step> {
    [InitiateStep(Some(buy.cart), buy.pricing, true, lag), ShippingStep(id, Some(buy.quote)), ReadyStep(id, true, false, true)]
  }

  /** The payment form, the customer, Stripe's webhook. */
  function PaymentSteps(buy: Purchase, id: nat, lag: nat): seq<Step> {
    [MintStep(id, buy.intent, true, ALL_UP, lag), StripeStep(buy.intent, Succeeded), WebhookStep(buy.intent, false)]
  }

  function TotalOf(buy: Purchase): int {
    var p := buy.pricing;
    Subtotal(buy.cart.lines) - p.categoryDiscount - p.priceRuleDiscount - p.couponDiscount + buy.quote.cents
  }

  /** What the order of a purchase says, whatever its status. */
  predicate OrderOf(o: Order, buy: Purchase) {
    && o.lines == buy.cart.lines && o.cartToken == Some(buy.cart.token) && o.coupon == buy.pricing.coupon
    && o.shippingMethod == buy.quote.shippingMethod
    && o.money.subtotal == Subtotal(buy.cart.lines) && o.money.tax == 0 && o.money.shipping == buy.quote.cents
    && o.money.categoryDiscount == buy.pricing.categoryDiscount + buy.pricing.priceRuleDiscount
    && o.money.discount == buy.pricing.couponDiscount
    && o.money.total == TotalOf(buy)
  }

  const TO_PAYMENT := [HistoryRow(None, Draft, "Checkout initiated", None),
                       HistoryRow(Some(Draft), AwaitingPayment, "Customer proceeded to payment", None)]

  const TO_PAID := TO_PAYMENT + [HistoryRow(Some(AwaitingPayment), Paid, "Payment confirmed", None)]

  /** Nothing but the one order and its units differ from the shop the purchase began in. */
  ghost predicate Ordered(w: World, w': World, buy: Purchase) {
    && |w'.shop.orders| == |w.shop.orders| + 1
    && w'.shop.orders[..|w.shop.orders|] == w.shop.orders
    && OrderOf(w'.shop.orders[|w.shop.orders|], buy)
  }

  lemma CheckedOut(opening: map<Variant, int>, ws: seq<World>, buy: Purchase, lag: nat)
    requires |ws| == 4 && FirstCheckout(opening, ws[0], buy.cart) && buy.quote.shippingMethod.Some?
    requires Trace(ws, CheckoutSteps(buy, |ws[0].shop.orders|, lag))
    ensures var id, w, w' := |ws[0].shop.orders|, ws[0], ws[3];
            && GoodWorld(opening, w') && Ordered(w, w', buy)
            && w'.shop.orders[id].status == AwaitingPayment && w'.shop.orders[id].history == TO_PAYMENT
            && w'.shop.orders[id].paymentIntent.None?
            && w'.ledger == w.ledger && w'.stripe == w.stripe
            && w'.shop.completions == w.shop.completions && w'.shop.couponUses == w.shop.couponUses
            && w'.shop.book == MovedLines(w.shop.book, OrderPlaced, buy.cart.lines, id)
  {
    var id, steps := |ws[0].shop.orders|, CheckoutSteps(buy, |ws[0].shop.orders|, lag);
    assert ws[1] == Next(ws[0], steps[0]) && ws[2] == Next(ws[1], steps[1]) && ws[3] == Next(ws[2], steps[2]);
    CheckoutMoves(opening, ws[0], ws[1], buy.cart, buy.pricing, lag);
    ShippingMoves(opening, ws[1], ws[2], id, buy.quote);
    ReadyMoves(opening, ws[2], ws[3], id);
  }

  /** The order with its intent, fifteen minutes to pay, and the money at Stripe. */
  ghost predicate MoneyAtStripe(opening: map<Variant, int>, w: World, w': World, id: nat, i: string)
    requires id < |w.shop.orders|
  {
    var o := w.shop.orders[id];
    && GoodWorld(opening, w')
    && w'.shop.orders == w.shop.orders[id := o.(paymentIntent := Some(i), expiresAt := Some(w.shop.now + 900_000))]
    && w'.stripe == w.stripe[i := Intent(Succeeded, o.money.total, true, Some(id))]
    && w'.ledger == w.ledger && w'.shop.book == w.shop.book
    && w'.shop.completions == w.shop.completions && w'.shop.couponUses == w.shop.couponUses
  }

  lemma MintedAndPaid(opening: map<Variant, int>, w: World, w1: World, w2: World, id: nat, i: string, lag: nat)
    requires GoodWorld(opening, w) && id < |w.shop.orders| && i !in w.stripe
    requires w.shop.orders[id].status == AwaitingPayment && w.shop.orders[id].paymentIntent.None?
    requires w1 == Next(w, MintStep(id, i, true, ALL_UP, lag)) && w2 == Next(w1, StripeStep(i, Succeeded))
    ensures MoneyAtStripe(opening, w, w2, id, i)
  {
    MintMoves(opening, w, w1, id, i, lag);
    CustomerPays(opening, w1, w2, i);
  }

  /** The payment written down: history, counts, ledger row, and the units in committed. */
  ghost predicate Settled(opening: map<Variant, int>, w: World, w': World, id: nat, i: string)
    requires id < |w.shop.orders| && i in w.stripe
  {
    var o := w.shop.orders[id];
    && GoodWorld(opening, w') && w'.stripe == w.stripe
    && w'.shop.orders == w.shop.orders[id := Moved(o, Paid, "Payment confirmed", None).(paymentIntent := Some(i))]
    && w'.ledger == w.ledger[ForIntent(i) := LedgerRow(id, i, Charge, true, w.stripe[i].amount)]
    && w'.shop.completions == w.shop.completions + multiset{id}
    && w'.shop.couponUses == (if o.coupon.Some? then w.shop.couponUses + multiset{o.coupon.value} else w.shop.couponUses)
    && w'.shop.book == MovedLines(w.shop.book, OrderPaid, o.lines, id)
  }

  lemma AnnouncedSettles(opening: map<Variant, int>, w: World, w': World, id: nat, i: string)
    requires Announced(opening, w, w', id, i) && w.shop.orders[id].status == AwaitingPayment
    ensures Settled(opening, w, w', id, i)
  {
    WebhookMoves(opening, w, w', id, i);
    ConfirmedOnce(opening, w.shop, id, i);
    ConfirmedBook(opening, w.shop, id, i);
  }

  lemma PaidFor(opening: map<Variant, int>, ws: seq<World>, buy: Purchase, id: nat, lag: nat)
    requires |ws| == 4 && GoodWorld(opening, ws[0]) && id < |ws[0].shop.orders| && buy.intent !in ws[0].stripe
    requires ForIntent(buy.intent) !in ws[0].ledger
    requires ws[0].shop.orders[id].status == AwaitingPayment && ws[0].shop.orders[id].paymentIntent.None?
    requires Trace(ws, PaymentSteps(buy, id, lag))
    ensures MoneyAtStripe(opening, ws[0], ws[2], id, buy.intent)
    ensures id < |ws[2].shop.orders| && buy.intent in ws[2].stripe && Settled(opening, ws[2], ws[3], id, buy.intent)
  {
    var steps := PaymentSteps(buy, id, lag);
    assert ws[1] == Next(ws[0], steps[0]) && ws[2] == Next(ws[1], steps[1]) && ws[3] == Next(ws[2], steps[2]);
    MintedAndPaid(opening, ws[0], ws[1], ws[2], id, buy.intent, lag);
    AnnouncedSettles(opening, ws[2], ws[3], id, buy.intent);
  }

  /**
   * A basket bought, paid, shipped and delivered: the order's prices are the
   * promotions engine's and the quote's, the customer is charged exactly its
   * total, the ledger holds one row for it, the payment and its coupon count
   * once, and the units end outside the house with no bucket holding any.
   */
  lemma BoughtAndDelivered(opening: map<Variant, int>, ws: seq<World>, vs: seq<World>, us: seq<World>, buy: Purchase, lag: nat, lag': nat,
                           notes: seq<string>, admin: string, v: Variant, d: int)
    requires |ws| == |vs| == |us| == 4 && ws[3] == vs[0] && vs[3] == us[0] && |notes| == 3
    requires FirstCheckout(opening, ws[0], buy.cart) && buy.quote.shippingMethod.Some?
    requires buy.intent !in ws[0].stripe && ForIntent(buy.intent) !in ws[0].ledger
    requires Trace(ws, CheckoutSteps(buy, |ws[0].shop.orders|, lag)) && Trace(vs, PaymentSteps(buy, |ws[0].shop.orders|, lag'))
    requires Handled(us[0], us[1], us[2], us[3], |ws[0].shop.orders|, notes, admin)
    requires v in ws[0].shop.book.rows && d == Demand(buy.cart.lines, v)
    ensures var w, w', id := ws[0], us[3], |ws[0].shop.orders|;
            && GoodWorld(opening, w') && Ordered(w, w', buy)
            && w'.shop.orders[id].status == Delivered && w'.shop.orders[id].paymentIntent == Some(buy.intent)
            && w'.shop.orders[id].history == TO_PAID + [HistoryRow(Some(Paid), Processing, notes[0], Some(admin)),
                                                        HistoryRow(Some(Processing), Shipped, notes[1], Some(admin)),
                                                        HistoryRow(Some(Shipped), Delivered, notes[2], Some(admin))]
            && w'.stripe == w.stripe[buy.intent := Intent(Succeeded, TotalOf(buy), true, Some(id))]
            && w'.ledger == w.ledger[ForIntent(buy.intent) := LedgerRow(id, buy.intent, Charge, true, TotalOf(buy))]
            && w'.shop.completions == w.shop.completions + multiset{id}
            && w'.shop.couponUses == (if buy.pricing.coupon.Some? then w.shop.couponUses + multiset{buy.pricing.coupon.value} else w.shop.couponUses)
            && RowMoved(w.shop.book, w'.shop.book, v, -d, 0, 0, d)
  {
    var id := |ws[0].shop.orders|;
    CheckedOut(opening, ws, buy, lag);
    PaidFor(opening, vs, buy, id, lag');
    BoughtUnits(opening, ws[0].shop.book, vs[0].shop, us[0].shop.book, buy.cart.lines, id, v, d);
    PaidIsDelivered(opening, us[0], us[1], us[2], us[3], id, notes, admin, v, d);
    RowMovedThen(ws[0].shop.book, us[0].shop.book, us[3].shop.book, v, -d, 0, d, 0, 0, 0, -d, d);
  }

  /** Reserved by checkout, committed by payment. */
  lemma BoughtUnits(opening: map<Variant, int>, b0: Book, s: Shop, b': Book, lines: seq<Line>, id: nat, v: Variant, d: int)
    requires Good(opening, s) && id < |s.orders| && s.orders[id].status == AwaitingPayment && s.orders[id].lines == lines
    requires s.book == MovedLines(b0, OrderPlaced, lines, id) && b' == MovedLines(s.book, OrderPaid, lines, id)
    requires v in b0.rows && d == Demand(lines, v)
    ensures RowMoved(b0, b', v, -d, 0, d, 0)
  {
    PlacedUnits(b0, lines, id, v, d);
    ConfirmedBook(opening, s, id, "");
    ConfirmedMoves(opening, s, id, "", v);
    RowMovedThen(b0, s.book, b', v, -d, d, 0, 0, 0, -d, d, 0);
  }

  // ── Cancelled, and paid after all ──────────────────────────────────────

  /** An open order past its deadline whose payment form is open, and nobody paying yet. */
  ghost predicate Lapsed(opening: map<Variant, int>, w: World, id: nat, i: string) {
    && GoodWorld(opening, w) && id < |w.shop.orders| && PastDeadline(w, id)
    && w.shop.orders[id].paymentIntent == Some(i) && ForIntent(i) !in w.ledger
    && i in w.stripe && w.stripe[i].status in {NeedsMethod, NeedsConfirmation} && w.stripe[i].order == Some(id)
  }

  lemma TimerMoves(opening: map<Variant, int>, w: World, w': World, key: JobKey, i: string, again: bool, lag: nat)
    requires Lapsed(opening, w, key.order, i) && Due(w, key) && w' == Next(w, TimerStep(key, true, again, lag))
    ensures GoodWorld(opening, w')
    ensures OnlyOrder(w, w', key.order, Moved(w.shop.orders[key.order], Cancelled, "Reservation expired — payment timeout", None))
    ensures w'.shop.book == Transitioned(w.shop, key.order, Cancelled, "Reservation expired — payment timeout", None).shop.book
  {
    NextGood(opening, w, TimerStep(key, true, again, lag));
    var done := Dropped(w, key);
    assert w' == done.(shop := Transitioned(done.shop, key.order, Cancelled, "Reservation expired — payment timeout", None).shop);
  }

  lemma TimerUnits(opening: map<Variant, int>, w: World, id: nat, note: string, admin: Option<string>, v: Variant, d: int)
    requires GoodWorld(opening, w) && id < |w.shop.orders| && Open(w.shop.orders[id].status)
    requires v in w.shop.book.rows && d == Demand(w.shop.orders[id].lines, v)
    ensures RowMoved(w.shop.book, Transitioned(w.shop, id, Cancelled, note, admin).shop.book, v, d, -d, 0, 0)
  {
    TransitionedMoves(opening, w.shop, id, Cancelled, note, admin, v);
  }

  /** Every variant of the order has an inventory row. */
  ghost predicate Tracked(b: Book, lines: seq<Line>) {
    forall v :: Stocks(lines, v) ==> v in b.rows
  }

  lemma TimerNoteIsATimeout(h: seq<HistoryRow>, from: Status)
    ensures ByTimeout(h + [HistoryRow(Some(from), Cancelled, "Reservation expired — payment timeout", None)])
  {
    var h' := h + [HistoryRow(Some(from), Cancelled, "Reservation expired — payment timeout", None)];
    assert "Reservation expired — payment timeout" == "" + "Reservation expired" + " — payment timeout";
    ByTimeoutIff(h');
  }

  lemma UnitsAreBack(opening: map<Variant, int>, w: World, b': Book, id: nat, note: string, v: Variant)
    requires GoodWorld(opening, w) && id < |w.shop.orders| && Open(w.shop.orders[id].status)
    requires b' == Transitioned(w.shop, id, Cancelled, note, None).shop.book && v in w.shop.book.rows
    ensures v in b'.rows && Demand(w.shop.orders[id].lines, v) <= b'.rows[v].available
  {
    TimerUnits(opening, w, id, note, None, v, Demand(w.shop.orders[id].lines, v));
    assert RowOk(opening, w.shop, v);
  }

  lemma TimedOutIsPayable(opening: map<Variant, int>, w: World, w': World, id: nat, note: string)
    requires GoodWorld(opening, w) && GoodWorld(opening, w') && id < |w.shop.orders| && Open(w.shop.orders[id].status)
    requires note == "Reservation expired — payment timeout" && Tracked(w.shop.book, w.shop.orders[id].lines)
    requires w'.shop.orders == w.shop.orders[id := Moved(w.shop.orders[id], Cancelled, note, None)]
    requires w'.shop.book == Transitioned(w.shop, id, Cancelled, note, None).shop.book
    ensures Payable(w'.shop, id)
  {
    var o := w.shop.orders[id];
    TimerNoteIsATimeout(o.history, o.status);
    CancelledPayableIff(w'.shop, id);
    forall v | Stocks(o.lines, v) ensures v in w'.shop.book.rows && Demand(o.lines, v) <= w'.shop.book.rows[v].available {
      UnitsAreBack(opening, w, w'.shop.book, id, note, v);
    }
  }

  /**
   * An order the timer has just cancelled can still be paid: the units it gave
   * up are still on the shelves, so the late payment restores it, and ends as
   * if it had come in time.
   */
  lemma LateMoneyStillPays(opening: map<Variant, int>, w: World, w1: World, w2: World, w3: World, key: JobKey, i: string, again: bool, lag: nat,
                           v: Variant, d: int)
    requires Lapsed(opening, w, key.order, i) && Due(w, key) && Tracked(w.shop.book, w.shop.orders[key.order].lines)
    requires w1 == Next(w, TimerStep(key, true, again, lag)) && w2 == Next(w1, StripeStep(i, Succeeded)) && w3 == Next(w2, WebhookStep(i, false))
    requires v in w.shop.book.rows && d == Demand(w.shop.orders[key.order].lines, v)
    ensures var id := key.order;
            && id < |w1.shop.orders| && w1.shop.orders[id].status == Cancelled && RowMoved(w.shop.book, w1.shop.book, v, d, -d, 0, 0)
            && id < |w3.shop.orders| && w3.shop.orders[id].status == Paid && RowMoved(w.shop.book, w3.shop.book, v, 0, -d, d, 0)
            && w3.ledger == w.ledger[ForIntent(i) := LedgerRow(id, i, Charge, true, w.stripe[i].amount)]
            && GoodWorld(opening, w3)
  {
    var id := key.order;
    TimerMoves(opening, w, w1, key, i, again, lag);
    TimerUnits(opening, w, id, "Reservation expired — payment timeout", None, v, d);
    TimedOutIsPayable(opening, w, w1, id, "Reservation expired — payment timeout");
    CustomerPays(opening, w1, w2, i);
    LatePays(opening, w1, w2, w3, id, i, v, d);
    RowMovedThen(w.shop.book, w1.shop.book, w3.shop.book, v, d, -d, 0, 0, -d, 0, d, 0);
  }

  lemma LatePays(opening: map<Variant, int>, w1: World, w2: World, w3: World, id: nat, i: string, v: Variant, d: int)
    requires Payable(w1.shop, id) && w1.shop.orders[id].status == Cancelled && w2.shop == w1.shop && w2.ledger == w1.ledger
    requires Announced(opening, w2, w3, id, i) && v in w1.shop.book.rows && d == Demand(w1.shop.orders[id].lines, v)
    ensures GoodWorld(opening, w3) && id < |w3.shop.orders| && w3.shop.orders[id].status == Paid
    ensures RowMoved(w1.shop.book, w3.shop.book, v, -d, 0, d, 0)
    ensures w3.ledger == w1.ledger[ForIntent(i) := LedgerRow(id, i, Charge, true, w2.stripe[i].amount)]
  {
    WebhookMoves(opening, w2, w3, id, i);
    ConfirmedPays(opening, w2.shop, id, i);
    ConfirmedMoves(opening, w2.shop, id, i, v);
  }

  /**
   * An order a person has cancelled stays cancelled whatever the customer pays:
   * the money is logged, and the units stay on the shelves.
   */
  lemma CancelledByHandStays(opening: map<Variant, int>, w: World, w1: World, w2: World, w3: World, id: nat, i: string, note: string, admin: string,
                             v: Variant, d: int)
    requires Lapsed(opening, w, id, i)
    requires w1 == Next(w, AdminStep(id, Cancelled, note, admin)) && w2 == Next(w1, StripeStep(i, Succeeded)) && w3 == Next(w2, WebhookStep(i, false))
    requires v in w.shop.book.rows && d == Demand(w.shop.orders[id].lines, v)
    ensures w3.shop.orders == w.shop.orders[id := Moved(w.shop.orders[id], Cancelled, note, Some(admin))]
    ensures RowMoved(w.shop.book, w3.shop.book, v, d, -d, 0, 0)
    ensures w3.ledger == w.ledger[ForIntent(i) := LedgerRow(id, i, Charge, true, w.stripe[i].amount)]
  {
    CancelledByHand(opening, w, w1, id, note, admin, v, d);
    CustomerPays(opening, w1, w2, i);
    RefusedByHand(opening, w2, w3, id, i);
  }

  lemma CancelledByHand(opening: map<Variant, int>, w: World, w': World, id: nat, note: string, admin: string, v: Variant, d: int)
    requires GoodWorld(opening, w) && id < |w.shop.orders| && Open(w.shop.orders[id].status) && w' == Next(w, AdminStep(id, Cancelled, note, admin))
    requires v in w.shop.book.rows && d == Demand(w.shop.orders[id].lines, v)
    ensures AdminMoved(opening, w, w', id, Cancelled, note, admin) && RowMoved(w.shop.book, w'.shop.book, v, d, -d, 0, 0)
  {
    AdminMoves(opening, w, w', id, Cancelled, note, admin);
    TimerUnits(opening, w, id, note, Some(admin), v, d);
  }

  lemma RefusedByHand(opening: map<Variant, int>, w: World, w': World, id: nat, i: string)
    requires GoodWorld(opening, w) && id < |w.shop.orders| && w.shop.orders[id].status == Cancelled
    requires w.shop.orders[id].history != [] && w.shop.orders[id].history[|w.shop.orders[id].history| - 1].admin.Some?
    requires i in w.stripe && w.stripe[i].status == Succeeded && w.stripe[i].order == Some(id) && ForIntent(i) !in w.ledger
    requires w' == Next(w, WebhookStep(i, false))
    ensures w'.shop == w.shop && w'.ledger == w.ledger[ForIntent(i) := LedgerRow(id, i, Charge, true, w.stripe[i].amount)]
  {
    ByTimeoutIff(w.shop.orders[id].history);
    PayingOutcome(w, i, w.stripe[i], false);
    CancelledPayableIff(w.shop, id);
    ConfirmedOutcome(opening, w.shop, id, i);
  }
}
