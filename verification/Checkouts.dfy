/**
 * What checkout's steps leave on an order: its price, its discounts and
 * coupon, its shipping, its stock and its deadline, written out column by
 * column for every way the steps can end.
 */
module Checkouts {
  import opened Common
  import opened Inventory
  import opened Orders
  import opened OrderInvariants
  import opened Transitions

  // ── The first step ─────────────────────────────────────────────────────

  /** The promotions engine's answer, on the lines it was asked about; shipping is chosen later. */
  predicate PricedAs(m: Money, lines: seq<Line>, p: Pricing, tax: int) {
    && m.subtotal == Subtotal(lines)
    && m.categoryDiscount == p.categoryDiscount + p.priceRuleDiscount
    && m.discount == p.couponDiscount
    && m.tax == tax && m.shipping == 0
    && m.total == m.subtotal - m.categoryDiscount - m.discount
  }

  /** The cart's first open order is carried on, unless no payment was started and its lines are no longer the cart's. */
  predicate Resumes(s: Shop, c: Cart) {
    var found := FindOpen(s.orders, c.token);
    found.Some? && (s.orders[found.value].paymentIntent.Some? || multiset(s.orders[found.value].lines) == multiset(c.lines))
  }

  /** A resumed order keeps everything but its prices, coupon and shipping. */
  predicate ResumedAs(o: Order, o': Order, lines: seq<Line>, p: Pricing) {
    && o' == o.(money := o'.money, coupon := p.coupon, shippingMethod := None)
    && PricedAs(o'.money, lines, p, o.money.tax)
  }

  /** A new draft: the cart's lines, fifteen minutes, no shipping and no payment yet. */
  predicate DraftedAs(o: Order, c: Cart, p: Pricing, now: nat) {
    && o.status == Draft && o.lines == c.lines && o.cartToken == Some(c.token)
    && o.history == [HistoryRow(None, Draft, "Checkout initiated", None)]
    && o.paymentIntent.None? && o.shippingMethod.None? && o.coupon == p.coupon
    && o.expiresAt == Some(now + 900_000)
    && PricedAs(o.money, c.lines, p, 0)
  }

  /** What a new draft is built on: the shop, with the cart's outdated order cancelled if it has one. */
  function Cleared(s: Shop, c: Cart): Shop {
    var found := FindOpen(s.orders, c.token);
    if found.None? then s
    else Transitioned(s, found.value, Cancelled, "Cart changed during checkout — order rebuilt from the cart", None).shop
  }

  ghost predicate Covers(b: Book, lines: seq<Line>) {
    forall v :: Stocks(lines, v) ==> v in b.rows && Demand(lines, v) <= b.rows[v].available
  }

  lemma RebuiltNote()
    ensures REBUILT_NOTE == "Cart changed during checkout — order rebuilt from the cart"
  {
  }

  lemma DraftPlacedOutcome(s: Shop, c: Cart, p: Pricing, pricesOk: bool, lag: nat)
    ensures var r, id := DraftPlaced(s, c, p, pricesOk, lag), |s.orders|;
            && (r.error.None? <==> pricesOk && Covers(s.book, c.lines))
            && (!pricesOk ==> r == Reply(s, Some(PriceChanged)))
            && (pricesOk && r.error.Some? ==> r.shop == s && r.error.value.StockRefused?)
            && (r.error.None? ==>
                  && |r.shop.orders| == id + 1 && r.shop.orders == s.orders + [r.shop.orders[id]]
                  && DraftedAs(r.shop.orders[id], c, p, s.now)
                  && r.shop.book == MovedLines(s.book, OrderPlaced, c.lines, id)
                  && r.shop.jobs == (if FirstExpiry(id) in s.jobs then s.jobs else s.jobs[FirstExpiry(id) := s.now + lag + 900_000])
                  && r.shop.completions == s.completions && r.shop.couponUses == s.couponUses && r.shop.now == s.now)
  {
    ReservedLinesIff(s.book, c.lines, |s.orders|);
  }

  /**
   * How checkout's first step ends for a cart with lines: the open order
   * resumed and re-priced, or a new draft in place of what was outdated, or a
   * refusal for a changed price or missing stock, by which time the outdated
   * order is cancelled.
   */
  lemma InitiatedOutcome(s: Shop, c: Cart, p: Pricing, pricesOk: bool, lag: nat)
    requires c.lines != []
    ensures var r, id, s1 := Initiated(s, Some(c), p, pricesOk, lag), FindOpen(s.orders, c.token), Cleared(s, c);
            if Resumes(s, c) then
              && r.error.None? && |r.shop.orders| == |s.orders|
              && r.shop == s.(orders := s.orders[id.value := r.shop.orders[id.value]])
              && ResumedAs(s.orders[id.value], r.shop.orders[id.value], c.lines, p)
            else
              && r == DraftPlaced(s1, c, p, pricesOk, lag)
              && |s1.orders| == |s.orders|
              && (id.Some? ==> May(s.orders[id.value].status, Cancelled))
  {
    RebuiltNote();
  }

  /** Without a cart, or with an empty one, nothing happens. */
  lemma InitiatedRefused(s: Shop, cart: Option<Cart>, p: Pricing, pricesOk: bool, lag: nat)
    requires cart.None? || cart.value.lines == []
    ensures Initiated(s, cart, p, pricesOk, lag) == Reply(s, Some(if cart.None? then CartMissing else CartEmpty))
  {
  }

  /**
   * Whether checkout created, rebuilt or resumed it, the cart's order carries
   * the discounts and the coupon the promotions engine returned, no shipping,
   * and a total that is its subtotal less all three discounts.
   */
  lemma InitiatedPrices(s: Shop, c: Cart, p: Pricing, pricesOk: bool, lag: nat) returns (id: nat)
    requires c.lines != [] && Initiated(s, Some(c), p, pricesOk, lag).error.None?
    ensures var s' := Initiated(s, Some(c), p, pricesOk, lag).shop;
            && id < |s'.orders| && id == (if Resumes(s, c) then FindOpen(s.orders, c.token).value else |s.orders|)
            && var o := s'.orders[id];
               && o.cartToken == Some(c.token) && Open(o.status)
               && o.money.subtotal == Subtotal(c.lines)
               && o.money.discount == p.couponDiscount
               && o.money.categoryDiscount == p.categoryDiscount + p.priceRuleDiscount
               && o.money.shipping == 0 && o.shippingMethod.None? && o.coupon == p.coupon
               && o.money.total == Subtotal(c.lines) - p.categoryDiscount - p.priceRuleDiscount - p.couponDiscount
  {
    InitiatedOutcome(s, c, p, pricesOk, lag);
    id := if Resumes(s, c) then FindOpen(s.orders, c.token).value else |s.orders|;
    if !Resumes(s, c) { DraftPlacedOutcome(Cleared(s, c), c, p, pricesOk, lag); }
  }

  /** A subtotal is every line's unit price times its quantity, each counted once. */
  lemma SubtotalIs(lines: seq<Line>, l: Line)
    ensures Subtotal([]) == 0 && Subtotal(lines + [l]) == Subtotal(lines) + l.unitPrice * l.quantity
  {
    assert (lines + [l])[..|lines|] == lines;
  }

  lemma ClearedRow(opening: map<Variant, int>, s: Shop, c: Cart, v: Variant)
    requires Good(opening, s) && !Resumes(s, c) && v in s.book.rows
    ensures Good(opening, Cleared(s, c)) && v in Cleared(s, c).book.rows && Cleared(s, c).book.rows.Keys == s.book.rows.Keys
    ensures var found, b' := FindOpen(s.orders, c.token), Cleared(s, c).book;
            var back := if found.Some? then Demand(s.orders[found.value].lines, v) else 0;
            && b'.rows[v].available == s.book.rows[v].available + back
            && b'.rows[v].reserved == s.book.rows[v].reserved - back
            && b'.rows[v].committed == s.book.rows[v].committed
            && NetShipped(b'.log, v) == NetShipped(s.book.log, v)
  {
    var found := FindOpen(s.orders, c.token);
    if found.Some? {
      var id := found.value;
      var note := "Cart changed during checkout — order rebuilt from the cart";
      assert OrderOk(s.orders[id]);
      TransitionedMoves(opening, s, id, Cancelled, note, None, v);
      TransitionedGood(opening, s, id, Cancelled, note, None);
      CommittedReplays(opening, s, id, s.orders[id].status, Cancelled, note, None);
    }
  }

  /**
   * Checkout takes what the cart needs from the shelves and puts it into
   * reserved; a rebuild first puts back what the outdated order held, so it is
   * refused for stock only when that does not suffice either.
   */
  lemma InitiatedUnits(opening: map<Variant, int>, s: Shop, c: Cart, p: Pricing, lag: nat)
    requires Good(opening, s) && c.lines != [] && !Resumes(s, c)
    ensures var r, found := Initiated(s, Some(c), p, true, lag), FindOpen(s.orders, c.token);
            && (r.error.None? <==>
                forall v :: Stocks(c.lines, v) ==>
                  && v in s.book.rows
                  && Demand(c.lines, v) <= s.book.rows[v].available + if found.Some? then Demand(s.orders[found.value].lines, v) else 0)
            && (r.error.None? ==>
                  forall v :: v in s.book.rows ==>
                    var back := if found.Some? then Demand(s.orders[found.value].lines, v) else 0;
                    && v in r.shop.book.rows
                    && r.shop.book.rows[v].available == s.book.rows[v].available + back - Demand(c.lines, v)
                    && r.shop.book.rows[v].reserved == s.book.rows[v].reserved - back + Demand(c.lines, v)
                    && r.shop.book.rows[v].committed == s.book.rows[v].committed)
  {
    var s1, found := Cleared(s, c), FindOpen(s.orders, c.token);
    InitiatedOutcome(s, c, p, true, lag);
    DraftPlacedOutcome(s1, c, p, true, lag);
    MovedLinesRows(s1.book, OrderPlaced, c.lines, |s1.orders|);
    forall v | v in s.book.rows
      ensures v in s1.book.rows
      ensures s1.book.rows[v].available == s.book.rows[v].available + if found.Some? then Demand(s.orders[found.value].lines, v) else 0
      ensures s1.book.rows[v].reserved == s.book.rows[v].reserved - if found.Some? then Demand(s.orders[found.value].lines, v) else 0
      ensures s1.book.rows[v].committed == s.book.rows[v].committed
    {
      ClearedRow(opening, s, c, v);
    }
    ClearedKeys(s, c);
  }

  lemma ClearedKeys(s: Shop, c: Cart)
    ensures Cleared(s, c).book.rows.Keys == s.book.rows.Keys
  {
    var found := FindOpen(s.orders, c.token);
    if found.Some? { MovedLinesKeys(s.book, OrderCancelled, s.orders[found.value].lines, found.value); }
  }

  // ── The one-step order, shipping, and the step to payment ──────────────

  /** The one-step order awaits its payment at once, priced with the quoted shipping and no discount, and without a deadline. */
  lemma PlacedOutcome(s: Shop, cart: Option<Cart>, pricesOk: bool, quote: Option<Quote>)
    ensures var r, id := PlacedFromCart(s, cart, pricesOk, quote), |s.orders|;
            if cart.None? then r == Reply(s, Some(CartMissing))
            else if cart.value.lines == [] then r == Reply(s, Some(CartEmpty))
            else if !pricesOk then r == Reply(s, Some(PriceChanged))
            else if quote.None? then r == Reply(s, Some(ShippingUnavailable))
            else if !Covers(s.book, cart.value.lines) then r.shop == s && r.error.Some? && r.error.value.StockRefused?
            else
              && r.error.None? && |r.shop.orders| == id + 1
              && r.shop == s.(book := MovedLines(s.book, OrderPlaced, cart.value.lines, id), orders := s.orders + [r.shop.orders[id]])
              && var o, subtotal, cents := r.shop.orders[id], Subtotal(cart.value.lines), quote.value.cents;
                 && o.status == AwaitingPayment && o.lines == cart.value.lines
                 && o.history == [HistoryRow(None, AwaitingPayment, "Order created", None)]
                 && o.paymentIntent.None? && o.expiresAt.None? && o.cartToken.None? && o.coupon.None?
                 && o.shippingMethod == quote.value.shippingMethod
                 && o.money == Money(subtotal, 0, 0, 0, cents, subtotal + cents)
  {
    if cart.Some? { ReservedLinesIff(s.book, cart.value.lines, |s.orders|); }
  }

  /** Choosing shipping re-totals an open order and touches nothing else. */
  lemma ShippingOutcome(s: Shop, id: nat, quote: Option<Quote>)
    ensures var r := ShippingUpdated(s, id, quote);
            if id >= |s.orders| then r == Reply(s, Some(OrderNotFound))
            else if s.orders[id].status !in {Draft, AwaitingPayment} || quote.None? then r == Reply(s, Some(ShippingUnavailable))
            else
              && r.error.None? && |r.shop.orders| == |s.orders|
              && r.shop == s.(orders := s.orders[id := r.shop.orders[id]])
              && var o, o' := s.orders[id], r.shop.orders[id];
                 && o' == o.(shippingMethod := quote.value.shippingMethod, money := o'.money)
                 && o'.money.subtotal == o.money.subtotal && o'.money.categoryDiscount == o.money.categoryDiscount
                 && o'.money.discount == o.money.discount && o'.money.tax == o.money.tax
                 && o'.money.shipping == quote.value.cents
                 && o'.money.total == o.money.subtotal - o.money.categoryDiscount - o.money.discount + o.money.tax + quote.value.cents
  {
  }

  /** Only an allowed draft with shipping, or free shipping, and its pickup point still on offer goes on to payment. */
  lemma ReadyOutcome(s: Shop, id: nat, testAllowed: bool, freeShipping: bool, pickupOk: bool)
    ensures var r := MadeReady(s, id, testAllowed, freeShipping, pickupOk);
            if id >= |s.orders| then r == Reply(s, Some(OrderNotFound))
            else if !testAllowed then r == Reply(s, Some(TestOrder))
            else if s.orders[id].status == AwaitingPayment then r == Reply(s, None)
            else if s.orders[id].status != Draft then r == Reply(s, Some(NotInDraft))
            else if s.orders[id].shippingMethod.None? && !freeShipping then r == Reply(s, Some(NoShippingMethod))
            else if !pickupOk then r == Reply(s, Some(PickupPointGone))
            else
              && r.error.None?
              && r.shop == s.(orders := r.shop.orders)
              && Advanced(s, r.shop, id, AwaitingPayment, "Customer proceeded to payment", None)
  {
  }
}
