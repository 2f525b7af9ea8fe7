/**
 * The order life cycle: src/orders/orders.service.ts, with the order-writing
 * parts of src/checkout/checkout.service.ts.
 *
 * A Shop is the order table, the stock book, the queue of delayed expiry jobs
 * and the two counters payment feeds. Each service call is one function on
 * Shops; OrdersService performs it in place.
 */
module Orders {
  import opened Common
  import opened Inventory

  // ── Orders ─────────────────────────────────────────────────────────────

  datatype Status = Draft | Pending | AwaitingPayment | Paid | Processing | Shipped | Delivered | Cancelled | Refunded

  function AllowedFrom(s: Status): set<Status> {
    match s
    case Draft => {AwaitingPayment, Cancelled}
    case Pending => {AwaitingPayment, Cancelled}
    case AwaitingPayment => {Paid, Cancelled}
    case Paid => {Processing, Cancelled, Refunded}
    case Processing => {Shipped, Cancelled, Refunded}
    case Shipped => {Delivered, Refunded}
    case Delivered => {Refunded}
    case Cancelled => {}
    case Refunded => {}
  }

  /** Draft and awaiting-payment orders: what checkout resumes and the expiry timer may cancel. */
  predicate Open(s: Status) {
    s == Draft || s == AwaitingPayment
  }

  datatype HistoryRow = HistoryRow(from: Option<Status>, to: Status, note: string, admin: Option<string>)

  datatype Money = Money(subtotal: int, categoryDiscount: int, discount: int, tax: int, shipping: int, total: int)

  datatype Order = Order(status: Status, lines: seq<Line>, history: seq<HistoryRow>, paymentIntent: Option<string>,
                         expiresAt: Option<nat>, cartToken: Option<string>, coupon: Option<string>,
                         shippingMethod: Option<string>, money: Money)

  /** Delayed jobs are keyed; adding a key that is already queued changes nothing. */
  datatype JobKey = FirstExpiry(order: nat) | ExtendedExpiry(order: nat, at: nat)

  datatype Shop = Shop(book: Book, orders: seq<Order>, jobs: map<JobKey, nat>,
                       completions: multiset<nat>, couponUses: multiset<string>, now: nat)

  datatype OrderError = OrderNotFound | NotAllowed(from: Status, to: Status) | CancelledByHand | StockRefused(cause: StockError)
                      | CartMissing | CartEmpty | PriceChanged | ShippingUnavailable | NotInDraft | TestOrder | NoShippingMethod | PickupPointGone

  /** What a call leaves behind, and the exception it ended with, if any. */
  datatype Reply = Reply(shop: Shop, error: Option<OrderError>)

  const RESERVATION_TTL_MS: nat := 900_000
  const RESERVATION_GRACE_MS: nat := 600_000

  const REBUILT_NOTE := "Cart changed during checkout" + " — order rebuilt from the cart"

  // ── Status transitions ─────────────────────────────────────────────────

  /** The bucket an order's units sit in while it has a given status. */
  datatype Hold = InReserved | InCommitted | NoHold

  function HoldOf(s: Status): Hold {
    match s
    case Draft => InReserved
    case Pending => InReserved
    case AwaitingPayment => InReserved
    case Paid => InCommitted
    case Processing => InCommitted
    case _ => NoHold
  }

  /** The stock movement of a transition, chosen from the status that was read and the one written. */
  function MoveFor(prev: Status, to: Status): Option<MoveKind> {
    if to == Cancelled || to == Refunded then
      if prev == Paid || prev == Processing then Some(OrderRefunded)
      else if prev != Shipped && prev != Delivered then Some(OrderCancelled)
      else None
    else if to == Paid then Some(OrderPaid)
    else if to == Shipped then Some(OrderShipped)
    else None
  }

  /** The transaction inside a transition, with the status read before it as a parameter. */
  function Committed(s: Shop, id: nat, prev: Status, to: Status, note: string, admin: Option<string>): Shop
    requires id < |s.orders|
  {
    var o := s.orders[id];
    var k := MoveFor(prev, to);
    s.(orders := s.orders[id := o.(status := to, history := o.history + [HistoryRow(Some(prev), to, note, admin)])],
       book := if k.Some? then MovedLines(s.book, k.value, o.lines, id) else s.book,
       completions := if to == Paid then s.completions + multiset{id} else s.completions,
       couponUses := if to == Paid && o.coupon.Some? then s.couponUses + multiset{o.coupon.value} else s.couponUses)
  }

  function Transitioned(s: Shop, id: nat, to: Status, note: string, admin: Option<string>): Reply {
    if id >= |s.orders| then Reply(s, Some(OrderNotFound))
    else
      var prev := s.orders[id].status;
      if to !in AllowedFrom(prev) then Reply(s, Some(NotAllowed(prev, to)))
      else Reply(Committed(s, id, prev, to, note, admin), None)
  }

  // ── Payment confirmation ───────────────────────────────────────────────

  predicate Mentions(text: string, part: string) {
    exists i :: 0 <= i <= |text| - |part| && OccursAt(text, part, i)
  }

  predicate OccursAt(text: string, part: string, i: nat)
    requires i + |part| <= |text|
  {
    text[i..i + |part|] == part
  }

  /** Cancelled by the timer or a failed payment, not by a person. */
  predicate ByTimeout(history: seq<HistoryRow>) {
    && history != []
    && var last := history[|history| - 1];
      && last.to == Cancelled
      && last.admin.None?
      && (Mentions(last.note, "Reservation expired") || Mentions(last.note, "Payment failed"))
  }

  const RESTORED := HistoryRow(Some(Cancelled), AwaitingPayment, "Payment arrived after the reservation timed out — order restored", None)

  /** The restoring transaction: the stock is reserved again, whatever the status is by then, and the order awaits its payment. */
  function Reinstated(s: Shop, id: nat): Result<Shop, StockError>
    requires id < |s.orders|
  {
    var o := s.orders[id];
    match ReservedLines(s.book, o.lines, id)
    case Err(e) => Err(e)
    case Ok(b) =>
      Ok(s.(book := b, orders := s.orders[id := o.(status := AwaitingPayment, history := o.history + [RESTORED])]))
  }

  /** Brings a timed-out order back. */
  function Restored(s: Shop, id: nat): Reply
    requires id < |s.orders|
  {
    if !ByTimeout(s.orders[id].history) then Reply(s, Some(CancelledByHand))
    else match Reinstated(s, id)
         case Err(e) => Reply(s, Some(StockRefused(e)))
         case Ok(s') => Reply(s', None)
  }

  function WithIntent(s: Shop, id: nat, intent: string): Shop
    requires id < |s.orders|
  {
    s.(orders := s.orders[id := s.orders[id].(paymentIntent := Some(intent))])
  }

  /** Links the intent and drops the first expiry job. */
  function Linked(s: Shop, id: nat, intent: string): Shop
    requires id < |s.orders|
  {
    WithIntent(s, id, intent).(jobs := s.jobs - {FirstExpiry(id)})
  }

  /** Links the intent and walks the order to Paid; `status` is the one read at the start. */
  function PaidFrom(s: Shop, id: nat, status: Status, intent: string): Reply
    requires id < |s.orders|
  {
    var linked := Linked(s, id, intent);
    var waiting := if status == Draft then Transitioned(linked, id, AwaitingPayment, "Payment initiated", None).shop else linked;
    Transitioned(waiting, id, Paid, "Payment confirmed", None)
  }

  function Confirmed(s: Shop, id: nat, intent: string): Reply {
    if id >= |s.orders| then Reply(s, Some(OrderNotFound))
    else
      var status := s.orders[id].status;
      if status == Paid then Reply(s, None)
      else
        var restored := if status == Cancelled then Restored(s, id) else Reply(s, None);
        if restored.error.Some? then restored else PaidFrom(restored.shop, id, status, intent)
  }

  /** The order's own intent, or one that says who recorded the payment. */
  function ManualIntent(o: Order, note: string): string {
    if o.paymentIntent.Some? then o.paymentIntent.value
    else if o.status == Paid then "manual"
    else "manual:" + if Trimmed(note) == "" then "admin" else Trimmed(note)
  }

  /** An admin recording a payment made outside Stripe keeps the intent the order already has. */
  function MarkedPaid(s: Shop, id: nat, note: string): Reply {
    if id >= |s.orders| then Reply(s, Some(OrderNotFound))
    else
      Confirmed(s, id, ManualIntent(s.orders[id], note))
  }

  // ── Reservation windows ────────────────────────────────────────────────

  function Queued(jobs: map<JobKey, nat>, key: JobKey, fireAt: nat): map<JobKey, nat> {
    if key in jobs then jobs else jobs[key := fireAt]
  }

  /** `lag` is the time between computing the deadline and the queue accepting the job. */
  function Extended(s: Shop, id: nat, lag: nat): Shop {
    var at := s.now + RESERVATION_TTL_MS;
    s.(orders := if id < |s.orders| && Open(s.orders[id].status) then s.orders[id := s.orders[id].(expiresAt := Some(at))] else s.orders,
       jobs := Queued(s.jobs, ExtendedExpiry(id, at), s.now + lag + RESERVATION_TTL_MS + 1000))
  }

  // ── Checkout ───────────────────────────────────────────────────────────

  /** What the promotions engine returned for the basket. */
  datatype Pricing = Pricing(categoryDiscount: nat, priceRuleDiscount: nat, couponDiscount: nat, coupon: Option<string>)

  /** A shipping offer; the free option stores no method id. */
  datatype Quote = Quote(shippingMethod: Option<string>, cents: nat)

  datatype Cart = Cart(token: string, lines: seq<Line>)

  function Subtotal(lines: seq<Line>): nat {
    if lines == [] then 0
    else Subtotal(lines[..|lines| - 1]) + lines[|lines| - 1].unitPrice * lines[|lines| - 1].quantity
  }

  function Priced(lines: seq<Line>, p: Pricing, tax: int): Money {
    var subtotal := Subtotal(lines);
    Money(subtotal, p.categoryDiscount + p.priceRuleDiscount, p.couponDiscount, tax, 0,
          subtotal - p.categoryDiscount - p.priceRuleDiscount - p.couponDiscount)
  }

  /** The first order of a cart that checkout can resume. */
  function FindOpen(orders: seq<Order>, token: string): (r: Option<nat>)
    ensures r.Some? ==> r.value < |orders| && orders[r.value].cartToken == Some(token) && Open(orders[r.value].status)
    ensures r.None? ==> forall i :: 0 <= i < |orders| ==> !(orders[i].cartToken == Some(token) && Open(orders[i].status))
  {
    if orders == [] then None
    else
      var earlier := FindOpen(orders[..|orders| - 1], token);
      if earlier.Some? then earlier
      else if orders[|orders| - 1].cartToken == Some(token) && Open(orders[|orders| - 1].status) then Some(|orders| - 1)
      else None
  }

  function Resumed(s: Shop, id: nat, lines: seq<Line>, p: Pricing): Shop
    requires id < |s.orders|
  {
    var o := s.orders[id];
    s.(orders := s.orders[id := o.(money := Priced(lines, p, o.money.tax), coupon := p.coupon, shippingMethod := None)])
  }

  /** The creation transaction: either every line is reserved and the order exists, or nothing happened. */
  function Created(s: Shop, o: Order): Result<Shop, StockError> {
    match ReservedLines(s.book, o.lines, |s.orders|)
    case Err(e) => Err(e)
    case Ok(b) => Ok(s.(book := b, orders := s.orders + [o]))
  }

  function NewDraft(s: Shop, cart: Cart, p: Pricing): Order {
    Order(Draft, cart.lines, [HistoryRow(None, Draft, "Checkout initiated", None)], None,
          Some(s.now + RESERVATION_TTL_MS), Some(cart.token), p.coupon, None, Priced(cart.lines, p, 0))
  }

  /** The creation half of checkout's first step, with the expiry job queued after the transaction. */
  function DraftPlaced(s: Shop, c: Cart, p: Pricing, pricesOk: bool, lag: nat): Reply {
    if !pricesOk then Reply(s, Some(PriceChanged))
    else
      match Created(s, NewDraft(s, c, p))
      case Err(e) => Reply(s, Some(StockRefused(e)))
      case Ok(s') => Reply(s'.(jobs := Queued(s'.jobs, FirstExpiry(|s.orders|), s'.now + lag + RESERVATION_TTL_MS)), None)
  }

  /** No payment was started and the lines are no longer the cart's. */
  predicate Outdated(o: Order, lines: seq<Line>) {
    o.paymentIntent.None? && multiset(o.lines) != multiset(lines)
  }

  /** Checkout's first step: resume the cart's open order, or cancel it when it no longer matches and build a new one. */
  function Initiated(s: Shop, cart: Option<Cart>, p: Pricing, pricesOk: bool, lag: nat): Reply {
    if cart.None? then Reply(s, Some(CartMissing))
    else if cart.value.lines == [] then Reply(s, Some(CartEmpty))
    else
      var c := cart.value;
      match FindOpen(s.orders, c.token)
      case None => DraftPlaced(s, c, p, pricesOk, lag)
      case Some(id) =>
        if Outdated(s.orders[id], c.lines) then
          DraftPlaced(Transitioned(s, id, Cancelled, REBUILT_NOTE, None).shop, c, p, pricesOk, lag)
        else Reply(Resumed(s, id, c.lines, p), None)
  }

  /** The one-step path: straight to awaiting payment, shipping already quoted, no reservation deadline. */
  function PlacedFromCart(s: Shop, cart: Option<Cart>, pricesOk: bool, quote: Option<Quote>): Reply {
    if cart.None? then Reply(s, Some(CartMissing))
    else if cart.value.lines == [] then Reply(s, Some(CartEmpty))
    else if !pricesOk then Reply(s, Some(PriceChanged))
    else if quote.None? then Reply(s, Some(ShippingUnavailable))
    else
      var cents := quote.value.cents;
      var subtotal := Subtotal(cart.value.lines);
      var o := Order(AwaitingPayment, cart.value.lines, [HistoryRow(None, AwaitingPayment, "Order created", None)], None,
                     None, None, None, quote.value.shippingMethod, Money(subtotal, 0, 0, 0, cents, AtLeastZero(subtotal + cents)));
      match Created(s, o)
      case Err(e) => Reply(s, Some(StockRefused(e)))
      case Ok(s') => Reply(s', None)
  }

  /** `quote` is the shipping service's offer for the chosen method: None when it offers no such method. */
  function ShippingUpdated(s: Shop, id: nat, quote: Option<Quote>): Reply {
    if id >= |s.orders| then Reply(s, Some(OrderNotFound))
    else if !Open(s.orders[id].status) then Reply(s, Some(ShippingUnavailable))
    else if quote.None? then Reply(s, Some(ShippingUnavailable))
    else
      var o := s.orders[id];
      var m := o.money;
      var cents := quote.value.cents;
      var total := m.subtotal - m.discount - m.categoryDiscount + m.tax + cents;
      Reply(s.(orders := s.orders[id := o.(shippingMethod := quote.value.shippingMethod, money := m.(shipping := cents, total := total))]), None)
  }

  function MadeReady(s: Shop, id: nat, testAllowed: bool, freeShipping: bool, pickupOk: bool): Reply {
    if id >= |s.orders| then Reply(s, Some(OrderNotFound))
    else if !testAllowed then Reply(s, Some(TestOrder))
    else
      var o := s.orders[id];
      if o.status == AwaitingPayment then Reply(s, None)
      else if o.status != Draft then Reply(s, Some(NotInDraft))
      else if o.shippingMethod.None? && !freeShipping then Reply(s, Some(NoShippingMethod))
      else if !pickupOk then Reply(s, Some(PickupPointGone))
      else
        var row := HistoryRow(Some(Draft), AwaitingPayment, "Customer proceeded to payment", None);
        Reply(s.(orders := s.orders[id := o.(status := AwaitingPayment, history := o.history + [row])]), None)
  }

  // ── The service ────────────────────────────────────────────────────────

  class OrdersService {
    const inventory: InventoryService
    var orders: seq<Order>
    var jobs: map<JobKey, nat>
    var completions: multiset<nat>
    var couponUses: multiset<string>
    var now: nat

    function View(): Shop
      reads this, inventory
    {
      Shop(inventory.View(), orders, jobs, completions, couponUses, now)
    }

    constructor (inventory: InventoryService)
      ensures this.inventory == inventory
      ensures View() == Shop(inventory.View(), [], map[], multiset{}, multiset{}, 0)
    {
      this.inventory := inventory;
      orders, jobs, completions, couponUses, now := [], map[], multiset{}, multiset{}, 0;
    }

    /** Reserves line by line; the first refusal rolls the whole transaction back. */
    method ReserveLines(lines: seq<Line>, id: nat) returns (r: Result<(), StockError>)
      modifies inventory
      ensures match ReservedLines(old(inventory.View()), lines, id)
              case Ok(b) => r == Ok(()) && inventory.View() == b
              case Err(e) => r == Err(e) && inventory.View() == old(inventory.View())
    {
      var rows, log := inventory.rows, inventory.log;
      for i := 0 to |lines|
        invariant ReservedLines(old(inventory.View()), lines[..i], id) == Ok(inventory.View())
      {
        assert lines[..i + 1][..i] == lines[..i];
        if lines[i].variant.Some? {
          var reserved := inventory.ReserveForOrder(lines[i].variant.value, lines[i].quantity, id);
          if reserved.Err? {
            ReservedLinesStops(old(inventory.View()), lines, i + 1, id);
            inventory.rows, inventory.log := rows, log;
            return reserved;
          }
        }
      }
      assert lines[..|lines|] == lines;
      return Ok(());
    }

    /** Moves every stocked line of an order, as the branch of the transition demands. */
    method MoveLines(kind: MoveKind, lines: seq<Line>, id: nat)
      requires kind in {OrderCancelled, OrderRefunded, OrderPaid, OrderShipped}
      modifies inventory
      ensures inventory.View() == MovedLines(old(inventory.View()), kind, lines, id)
    {
      for i := 0 to |lines|
        invariant inventory.View() == MovedLines(old(inventory.View()), kind, lines[..i], id)
      {
        assert lines[..i + 1][..i] == lines[..i];
        if lines[i].variant.Some? {
          var v, q := lines[i].variant.value, lines[i].quantity;
          match kind {
            case OrderCancelled => inventory.ReleaseForOrder(v, q, id);
            case OrderRefunded => inventory.ReleaseCommittedForOrder(v, q, id);
            case OrderPaid => inventory.CommitForOrder(v, q, id);
            case OrderShipped => inventory.ConfirmSale(v, q, id);
          }
        }
      }
      assert lines[..|lines|] == lines;
    }

    method Transition(id: nat, to: Status, note: string, admin: Option<string>) returns (error: Option<OrderError>)
      modifies this, inventory
      ensures Reply(View(), error) == Transitioned(old(View()), id, to, note, admin)
    {
      if id >= |orders| { return Some(OrderNotFound); }
      var order := orders[id];
      var prev := order.status;
      if to !in AllowedFrom(prev) { return Some(NotAllowed(prev, to)); }
      orders := orders[id := order.(status := to, history := order.history + [HistoryRow(Some(prev), to, note, admin)])];
      if to == Cancelled || to == Refunded {
        if prev == Paid || prev == Processing {
          MoveLines(OrderRefunded, order.lines, id);
        } else if prev != Shipped && prev != Delivered {
          MoveLines(OrderCancelled, order.lines, id);
        }
      }
      if to == Paid {
        MoveLines(OrderPaid, order.lines, id);
        completions := completions + multiset{id};
        if order.coupon.Some? {
          couponUses := couponUses + multiset{order.coupon.value};
        }
      }
      if to == Shipped {
        MoveLines(OrderShipped, order.lines, id);
      }
      return None;
    }

    method ConfirmPayment(id: nat, intent: string) returns (error: Option<OrderError>)
      modifies this, inventory
      ensures Reply(View(), error) == Confirmed(old(View()), id, intent)
    {
      if id >= |orders| { return Some(OrderNotFound); }
      var order := orders[id];
      if order.status == Paid { return None; }
      if order.status == Cancelled {
        if !ByTimeout(order.history) { return Some(CancelledByHand); }
        var reserved := ReserveLines(order.lines, id);
        if reserved.Err? { return Some(StockRefused(reserved.error)); }
        orders := orders[id := order.(status := AwaitingPayment, history := order.history + [RESTORED])];
      }
      orders := orders[id := orders[id].(paymentIntent := Some(intent))];
      jobs := jobs - {FirstExpiry(id)};
      if order.status == Draft {
        error := Transition(id, AwaitingPayment, "Payment initiated", None);
      }
      error := Transition(id, Paid, "Payment confirmed", None);
    }

    method MarkPaidManually(id: nat, note: string) returns (error: Option<OrderError>)
      modifies this, inventory
      ensures Reply(View(), error) == MarkedPaid(old(View()), id, note)
    {
      if id >= |orders| { return Some(OrderNotFound); }
      var order := orders[id];
      if order.status == Paid {
        error := ConfirmPayment(id, if order.paymentIntent.Some? then order.paymentIntent.value else "manual");
        return;
      }
      var byHand := "manual:" + if Trimmed(note) == "" then "admin" else Trimmed(note);
      error := ConfirmPayment(id, if order.paymentIntent.Some? then order.paymentIntent.value else byHand);
    }

    method ExtendReservation(id: nat, lag: nat)
      modifies this
      ensures View() == Extended(old(View()), id, lag)
    {
      var at := now + RESERVATION_TTL_MS;
      if id < |orders| && Open(orders[id].status) {
        orders := orders[id := orders[id].(expiresAt := Some(at))];
      }
      jobs := Queued(jobs, ExtendedExpiry(id, at), now + lag + RESERVATION_TTL_MS + 1000);
    }

    method PlaceDraft(c: Cart, p: Pricing, pricesOk: bool, lag: nat) returns (error: Option<OrderError>)
      modifies this, inventory
      ensures Reply(View(), error) == DraftPlaced(old(View()), c, p, pricesOk, lag)
    {
      if !pricesOk { return Some(PriceChanged); }
      var id := |orders|;
      var draft := NewDraft(View(), c, p);
      var reserved := ReserveLines(c.lines, id);
      if reserved.Err? { return Some(StockRefused(reserved.error)); }
      orders := orders + [draft];
      jobs := Queued(jobs, FirstExpiry(id), now + lag + RESERVATION_TTL_MS);
      return None;
    }

    method Initiate(cart: Option<Cart>, p: Pricing, pricesOk: bool, lag: nat) returns (error: Option<OrderError>)
      modifies this, inventory
      ensures Reply(View(), error) == Initiated(old(View()), cart, p, pricesOk, lag)
    {
      if cart.None? { return Some(CartMissing); }
      var c := cart.value;
      if c.lines == [] { return Some(CartEmpty); }
      var existing := FindOpen(orders, c.token);
      if existing.Some? && Outdated(orders[existing.value], c.lines) {
        var _ := Transition(existing.value, Cancelled, REBUILT_NOTE, None);
        existing := None;
      }
      if existing.Some? {
        var order := orders[existing.value];
        orders := orders[existing.value := order.(money := Priced(c.lines, p, order.money.tax), coupon := p.coupon, shippingMethod := None)];
        return None;
      }
      error := PlaceDraft(c, p, pricesOk, lag);
    }

    method CreateFromCart(cart: Option<Cart>, pricesOk: bool, quote: Option<Quote>) returns (error: Option<OrderError>)
      modifies this, inventory
      ensures Reply(View(), error) == PlacedFromCart(old(View()), cart, pricesOk, quote)
    {
      if cart.None? { return Some(CartMissing); }
      var lines := cart.value.lines;
      if lines == [] { return Some(CartEmpty); }
      if !pricesOk { return Some(PriceChanged); }
      if quote.None? { return Some(ShippingUnavailable); }
      var subtotal, cents := Subtotal(lines), quote.value.cents;
      var order := Order(AwaitingPayment, lines, [HistoryRow(None, AwaitingPayment, "Order created", None)], None,
                         None, None, None, quote.value.shippingMethod,
                         Money(subtotal, 0, 0, 0, cents, AtLeastZero(subtotal + cents)));
      var reserved := ReserveLines(lines, |orders|);
      if reserved.Err? { return Some(StockRefused(reserved.error)); }
      orders := orders + [order];
      return None;
    }

    method UpdateShipping(id: nat, quote: Option<Quote>) returns (error: Option<OrderError>)
      modifies this`orders
      ensures Reply(View(), error) == ShippingUpdated(old(View()), id, quote)
    {
      if id >= |orders| { return Some(OrderNotFound); }
      var order := orders[id];
      if !Open(order.status) || quote.None? { return Some(ShippingUnavailable); }
      var m, cents := order.money, quote.value.cents;
      var total := m.subtotal - m.discount - m.categoryDiscount + m.tax + cents;
      orders := orders[id := order.(shippingMethod := quote.value.shippingMethod, money := m.(shipping := cents, total := total))];
      return None;
    }

    method ReadyForPayment(id: nat, testAllowed: bool, freeShipping: bool, pickupOk: bool) returns (error: Option<OrderError>)
      modifies this`orders
      ensures Reply(View(), error) == MadeReady(old(View()), id, testAllowed, freeShipping, pickupOk)
    {
      if id >= |orders| { return Some(OrderNotFound); }
      if !testAllowed { return Some(TestOrder); }
      var order := orders[id];
      if order.status == AwaitingPayment { return None; }
      if order.status != Draft { return Some(NotInDraft); }
      if order.shippingMethod.None? && !freeShipping { return Some(NoShippingMethod); }
      if !pickupOk { return Some(PickupPointGone); }
      var row := HistoryRow(Some(Draft), AwaitingPayment, "Customer proceeded to payment", None);
      orders := orders[id := order.(status := AwaitingPayment, history := order.history + [row])];
      return None;
    }
  }
}
