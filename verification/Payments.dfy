/**
 * Stripe intents, the payment ledger and settlement:
 * src/payments/shop-payment.service.ts, and the reservation timer that asks it
 * before cancelling: src/checkout/checkout-reservation.processor.ts.
 *
 * Stripe is a map from intent ids to a status and an amount; `up` says whether
 * a read of it succeeds.
 */
module Payments {
  import opened Common
  import opened Inventory
  import opened Orders

  datatype IntentStatus = NeedsMethod | NeedsConfirmation | NeedsAction | InProcessing | NeedsCapture | Canceled | Succeeded

  /** `automatic`: minted with automatic payment methods; `order`: the order named in the metadata. */
  datatype Intent = Intent(status: IntentStatus, amount: int, automatic: bool, order: Option<nat>)

  /** The ledger's unique key: one row per intent for money received, one per event otherwise. */
  datatype LedgerKey = ForIntent(intent: string) | ForEvent(event: string)

  datatype TransactionKind = Charge | Refund

  datatype LedgerRow = LedgerRow(order: nat, transaction: string, kind: TransactionKind, succeeded: bool, amount: int)

  datatype World = World(shop: Shop, ledger: map<LedgerKey, LedgerRow>, stripe: map<string, Intent>)

  predicate Reconcilable(s: Status) {
    s == Draft || s == AwaitingPayment || s == Cancelled
  }

  predicate Replaceable(s: IntentStatus) {
    s == NeedsMethod || s == NeedsConfirmation
  }

  predicate AmountMutable(s: IntentStatus) {
    s == NeedsMethod || s == NeedsConfirmation || s == NeedsAction
  }

  // ── The ledger and settlement ──────────────────────────────────────────

  /** Inserts a row unless its key is taken; false means it was already there. */
  function Recorded(w: World, key: LedgerKey, row: LedgerRow): (World, bool) {
    if key in w.ledger then (w, false) else (w.(ledger := w.ledger[key := row]), true)
  }

  function ChargeRow(id: nat, i: string, amount: int): LedgerRow {
    LedgerRow(id, i, Charge, true, amount)
  }

  /** The one place an order becomes paid; a refusal is reported, not thrown. */
  function SettledBy(w: World, id: nat, i: string): (World, bool) {
    if id >= |w.shop.orders| then (w, false)
    else
      var reply := Confirmed(w.shop, id, i);
      (w.(shop := reply.shop), reply.error.None?)
  }

  /** The payment-succeeded webhook. With `crash`, the process dies after the ledger write. */
  function Paying(w: World, i: string, intent: Intent, crash: bool): World {
    if intent.order.None? || intent.order.value >= |w.shop.orders| then w
    else
      var id := intent.order.value;
      var status := w.shop.orders[id].status;
      var (w', isNew) := Recorded(w, ForIntent(i), ChargeRow(id, i, intent.amount));
      if !crash && (isNew || status != Paid) then SettledBy(w', id, i).0 else w'
  }

  datatype Reconciliation = Reconciliation(status: Status, reconciled: bool)

  /** The intent a reconciliation of this order would settle, if Stripe holds its money. */
  function SucceededIntent(w: World, id: nat, up: bool): Option<string> {
    if id >= |w.shop.orders| then None
    else
      var o := w.shop.orders[id];
      if o.paymentIntent.None? || !Reconcilable(o.status) || !up || o.paymentIntent.value !in w.stripe then None
      else
        var i := o.paymentIntent.value;
        if w.stripe[i].status != Succeeded || (w.stripe[i].order.Some? && w.stripe[i].order.value != id) then None else Some(i)
  }

  function Reconciled(w: World, id: nat, up: bool, crash: bool): (World, Option<Reconciliation>) {
    if id >= |w.shop.orders| then (w, None)
    else
      var i := SucceededIntent(w, id, up);
      if i.None? then (w, Some(Reconciliation(w.shop.orders[id].status, false)))
      else
        var (w1, isNew) := Recorded(w, ForIntent(i.value), ChargeRow(id, i.value, w.stripe[i.value].amount));
        if crash then (w1, None)
        else
          var (w2, ok) := SettledBy(w1, id, i.value);
          var status := if id < |w2.shop.orders| then w2.shop.orders[id].status else w.shop.orders[id].status;
          (w2, Some(Reconciliation(status, isNew && ok)))
  }

  /** The sweep: each order in turn, counting those it settled; the reads of `unread` fail. */
  function Swept(w: World, ids: seq<nat>, unread: set<nat>): (World, nat) {
    if ids == [] then (w, 0)
    else
      var (w1, n) := Swept(w, ids[..|ids| - 1], unread);
      var (w2, r) := Reconciled(w1, ids[|ids| - 1], ids[|ids| - 1] !in unread, false);
      (w2, n + if r.Some? && r.value.reconciled then 1 else 0)
  }

  lemma SweptMore(w: World, ids: seq<nat>, n: nat, unread: set<nat>)
    requires n < |ids|
    ensures var (w1, settled) := Swept(w, ids[..n], unread);
            var (w2, r) := Reconciled(w1, ids[n], ids[n] !in unread, false);
            Swept(w, ids[..n + 1], unread) == (w2, settled + if r.Some? && r.value.reconciled then 1 else 0)
  {
    assert ids[..n + 1][..n] == ids[..n];
  }

  datatype IntentState = MoneyHeld | InFlight | NoMoney

  /**
   * What Stripe knows of the order's payment; money already held is settled on
   * the spot. `up` is the state read's outcome, `again` that of the second read
   * the settlement makes, whose failure is swallowed.
   */
  function IntentStateOf(w: World, id: nat, up: bool, again: bool): (r: (World, IntentState))
    ensures r.1 != MoneyHeld ==> r.0 == w
  {
    if id >= |w.shop.orders| || w.shop.orders[id].paymentIntent.None? then (w, NoMoney)
    else
      var i := w.shop.orders[id].paymentIntent.value;
      if !up || i !in w.stripe then (w, InFlight)
      else if w.stripe[i].status == Succeeded then (Reconciled(w, id, again, false).0, MoneyHeld)
      else if w.stripe[i].status in {InProcessing, NeedsAction, NeedsCapture} then (w, InFlight)
      else (w, NoMoney)
  }

  /** A failed attempt is logged under its own event and restarts the reservation. */
  function PaymentFailed(w: World, event: string, i: string, intent: Intent, lag: nat): World {
    if intent.order.None? then w
    else
      var id := intent.order.value;
      var (w', isNew) := Recorded(w, ForEvent(event), LedgerRow(id, i, Charge, false, intent.amount));
      if isNew then w'.(shop := Extended(w'.shop, id, lag)) else w'
  }

  /** The refund webhook for the order found under the charge's intent. With `crash`, the process dies after the ledger write. */
  function ChargeRefunded(w: World, event: string, charge: string, id: nat, amount: int, crash: bool): World {
    if id >= |w.shop.orders| then w
    else
      var (w', isNew) := Recorded(w, ForEvent(event), LedgerRow(id, charge, Refund, true, amount));
      if !isNew || crash || w.shop.orders[id].status == Refunded then w'
      else w'.(shop := Transitioned(w'.shop, id, Refunded, "Refunded via Stripe", None).shop)
  }

  // ── Intents ────────────────────────────────────────────────────────────

  datatype MintError = NoSuchOrder | TestOrderBlocked | PaymentNotDue | StripeUnreadable | PaymentInProgress | StripeRefused

  /** Which calls to Stripe go through: reads, best-effort cancellations, and creates or updates. */
  datatype Gateway = Gateway(readable: bool, cancellable: bool, writable: bool)

  /** A new intent for the order's total, stored on the order, with the reservation restarted. */
  function WithNewIntent(w: World, id: nat, newId: string, lag: nat): World
    requires id < |w.shop.orders|
  {
    var intent := Intent(NeedsMethod, w.shop.orders[id].money.total, true, Some(id));
    w.(stripe := w.stripe[newId := intent], shop := Extended(WithIntent(w.shop, id, newId), id, lag))
  }

  /** The intent the order has, if it is a card-only one that nobody is paying, is cancelled before it is replaced. */
  function CardOnlyDropped(w: World, i: string, g: Gateway): World
    requires i in w.stripe
  {
    if g.cancellable then w.(stripe := w.stripe[i := w.stripe[i].(status := Canceled)]) else w
  }

  predicate CardOnly(intent: Intent) {
    !intent.automatic && Replaceable(intent.status)
  }

  function FreshIntent(w: World, id: nat, newId: string, g: Gateway, lag: nat): (World, Result<string, MintError>)
    requires id < |w.shop.orders|
  {
    if g.writable then (WithNewIntent(w, id, newId, lag), Ok(newId)) else (w, Err(StripeRefused))
  }

  /** `newId` is the id Stripe will give a new intent. */
  function Minted(w: World, id: nat, newId: string, testAllowed: bool, g: Gateway, lag: nat): (r: (World, Result<string, MintError>))
    // Every intent handed to the payment form is the one stored on the order, for exactly the order's total.
    ensures r.1.Ok? ==>
              && id < |w.shop.orders| == |r.0.shop.orders| && w.shop.orders[id].status == AwaitingPayment
              && r.0.shop.orders[id].paymentIntent == Some(r.1.value)
              && r.0.shop.orders[id].money == w.shop.orders[id].money
              && r.1.value in r.0.stripe
              && r.0.stripe[r.1.value].amount == r.0.shop.orders[id].money.total
    // A refusal changes nothing, but that the card-only intent it was about to replace may be cancelled by then.
    ensures r.1.Err? ==>
              || r.0 == w
              || (&& r.1.error == StripeRefused && id < |w.shop.orders| && w.shop.orders[id].paymentIntent.Some?
                  && var i := w.shop.orders[id].paymentIntent.value;
                     i in w.stripe && CardOnly(w.stripe[i]) && r.0 == w.(stripe := w.stripe[i := w.stripe[i].(status := Canceled)]))
  {
    if id >= |w.shop.orders| then (w, Err(NoSuchOrder))
    else if !testAllowed then (w, Err(TestOrderBlocked))
    else
      var o := w.shop.orders[id];
      if o.status != AwaitingPayment then (w, Err(PaymentNotDue))
      else if o.paymentIntent.None? then FreshIntent(w, id, newId, g, lag)
      else
        var i := o.paymentIntent.value;
        if !g.readable || i !in w.stripe then (w, Err(StripeUnreadable))
        else
          var existing := w.stripe[i];
          if CardOnly(existing) then FreshIntent(CardOnlyDropped(w, i, g), id, newId, g, lag)
          else if existing.status == Canceled then FreshIntent(w, id, newId, g, lag)
          else if existing.amount == o.money.total then (w, Ok(i))
          else if !AmountMutable(existing.status) then (w, Err(PaymentInProgress))
          else if !g.writable then (w, Err(StripeRefused))
          else (w.(stripe := w.stripe[i := existing.(amount := o.money.total)]), Ok(i))
  }

  /** Opening the payment form never re-prices, cancels or unlinks an intent whose money Stripe holds or may be about to, on any order. */
  lemma MintLeavesMoneyAlone(w: World, id: nat, newId: string, testAllowed: bool, g: Gateway, lag: nat, j: nat, i: string)
    requires newId !in w.stripe && i in w.stripe && w.stripe[i].status in {Succeeded, InProcessing, NeedsCapture}
    requires j < |w.shop.orders| && w.shop.orders[j].paymentIntent == Some(i)
    ensures var w' := Minted(w, id, newId, testAllowed, g, lag).0;
            && i in w'.stripe && w'.stripe[i] == w.stripe[i]
            && j < |w'.shop.orders| && w'.shop.orders[j].paymentIntent == Some(i)
  {
  }

  // ── The reservation timer ──────────────────────────────────────────────

  /** The expiry job `key` runs. It either finishes, and leaves the queue, or puts itself back for a grace period. */
  function Fired(w: World, key: JobKey, up: bool, again: bool, lag: nat): World {
    var id, done := key.order, w.(shop := w.shop.(jobs := w.shop.jobs - {key}));
    if id >= |w.shop.orders| || !Open(w.shop.orders[id].status) then done
    else if w.shop.orders[id].expiresAt.Some? && w.shop.orders[id].expiresAt.value > w.shop.now then done
    else Expired(done, key, up, again, lag)
  }

  /** An open order at its deadline: settled, postponed or cancelled, as Stripe says. */
  function Expired(w: World, key: JobKey, up: bool, again: bool, lag: nat): World {
    var (w', state) := IntentStateOf(w, key.order, up, again);
    match state
    case MoneyHeld => w'
    case InFlight => Postponed(w, key, lag)
    case NoMoney => w.(shop := Transitioned(w.shop, key.order, Cancelled, "Reservation expired — payment timeout", None).shop)
  }

  function Postponed(w: World, key: JobKey, lag: nat): World {
    var s := w.shop;
    if key.order >= |s.orders| then w
    else w.(shop := s.(orders := s.orders[key.order := s.orders[key.order].(expiresAt := Some(s.now + RESERVATION_GRACE_MS))],
                       jobs := s.jobs[key := s.now + lag + RESERVATION_GRACE_MS]))
  }

  // ── The services ───────────────────────────────────────────────────────

  class PaymentService {
    const orders: OrdersService
    var ledger: map<LedgerKey, LedgerRow>
    var stripe: map<string, Intent>

    function View(): World
      reads this, orders, orders.inventory
    {
      World(orders.View(), ledger, stripe)
    }

    constructor (orders: OrdersService)
      ensures this.orders == orders && View() == World(orders.View(), map[], map[])
    {
      this.orders := orders;
      ledger, stripe := map[], map[];
    }

    method RecordTransaction(key: LedgerKey, row: LedgerRow) returns (isNew: bool)
      modifies this`ledger
      ensures (View(), isNew) == Recorded(old(View()), key, row)
    {
      if key in ledger { return false; }
      ledger := ledger[key := row];
      return true;
    }

    method Settle(id: nat, i: string) returns (ok: bool)
      modifies orders, orders.inventory
      ensures (View(), ok) == SettledBy(old(View()), id, i)
    {
      if id >= |orders.orders| { return false; }
      var error := orders.ConfirmPayment(id, i);
      return error.None?;
    }

    method HandlePaymentSucceeded(i: string, intent: Intent)
      modifies this, orders, orders.inventory
      ensures View() == Paying(old(View()), i, intent, false)
    {
      if intent.order.None? { return; }
      var id := intent.order.value;
      if id >= |orders.orders| { return; }
      var status := orders.orders[id].status;
      var isNew := RecordTransaction(ForIntent(i), ChargeRow(id, i, intent.amount));
      if !isNew {
        if status != Paid { var _ := Settle(id, i); }
        return;
      }
      var _ := Settle(id, i);
    }

    method ReconcileOrder(id: nat, up: bool) returns (r: Option<Reconciliation>)
      modifies this, orders, orders.inventory
      ensures (View(), r) == Reconciled(old(View()), id, up, false)
    {
      if id >= |orders.orders| { return None; }
      var order := orders.orders[id];
      if order.paymentIntent.None? || !Reconcilable(order.status) { return Some(Reconciliation(order.status, false)); }
      var i := order.paymentIntent.value;
      if !up || i !in stripe { return Some(Reconciliation(order.status, false)); }
      var intent := stripe[i];
      if intent.status != Succeeded { return Some(Reconciliation(order.status, false)); }
      if intent.order.Some? && intent.order.value != id { return Some(Reconciliation(order.status, false)); }
      var isNew := RecordTransaction(ForIntent(i), ChargeRow(id, i, intent.amount));
      var ok := Settle(id, i);
      var after := if id < |orders.orders| then orders.orders[id].status else order.status;
      return Some(Reconciliation(after, isNew && ok));
    }

    method ReconcilePending(ids: seq<nat>, unread: set<nat>) returns (settled: nat)
      modifies this, orders, orders.inventory
      ensures (View(), settled) == Swept(old(View()), ids, unread)
    {
      ghost var start := View();
      settled := 0;
      for n := 0 to |ids|
        invariant (View(), settled) == Swept(start, ids[..n], unread)
      {
        SweptMore(start, ids, n, unread);
        var r := ReconcileOrder(ids[n], ids[n] !in unread);
        if r.Some? && r.value.reconciled { settled := settled + 1; }
      }
      assert ids[..|ids|] == ids;
    }

    method IntentState(id: nat, up: bool, again: bool) returns (state: IntentState)
      modifies this, orders, orders.inventory
      ensures (View(), state) == IntentStateOf(old(View()), id, up, again)
    {
      if id >= |orders.orders| || orders.orders[id].paymentIntent.None? { return NoMoney; }
      var i := orders.orders[id].paymentIntent.value;
      if !up || i !in stripe { return InFlight; }
      match stripe[i].status {
        case Succeeded =>
          var _ := ReconcileOrder(id, again);
          return MoneyHeld;
        case InProcessing => return InFlight;
        case NeedsAction => return InFlight;
        case NeedsCapture => return InFlight;
        case _ => return NoMoney;
      }
    }

    method HandlePaymentFailed(event: string, i: string, intent: Intent, lag: nat)
      modifies this, orders
      ensures View() == PaymentFailed(old(View()), event, i, intent, lag)
    {
      if intent.order.None? { return; }
      var id := intent.order.value;
      var isNew := RecordTransaction(ForEvent(event), LedgerRow(id, i, Charge, false, intent.amount));
      if !isNew { return; }
      orders.ExtendReservation(id, lag);
    }

    method HandleChargeRefunded(event: string, charge: string, id: nat, amount: int)
      modifies this, orders, orders.inventory
      ensures View() == ChargeRefunded(old(View()), event, charge, id, amount, false)
    {
      if id >= |orders.orders| { return; }
      var order := orders.orders[id];
      var isNew := RecordTransaction(ForEvent(event), LedgerRow(id, charge, Refund, true, amount));
      if !isNew { return; }
      if order.status != Refunded {
        var _ := orders.Transition(id, Refunded, "Refunded via Stripe", None);
      }
    }

    method CreateIntent(id: nat, newId: string, g: Gateway, lag: nat) returns (r: Result<string, MintError>)
      requires id < |orders.orders|
      modifies this, orders
      ensures (View(), r) == FreshIntent(old(View()), id, newId, g, lag)
    {
      if !g.writable { return Err(StripeRefused); }
      var order := orders.orders[id];
      stripe := stripe[newId := Intent(NeedsMethod, order.money.total, true, Some(id))];
      orders.orders := orders.orders[id := order.(paymentIntent := Some(newId))];
      orders.ExtendReservation(id, lag);
      return Ok(newId);
    }

    method MintOrReuseIntent(id: nat, newId: string, testAllowed: bool, g: Gateway, lag: nat)
      returns (r: Result<string, MintError>)
      modifies this, orders
      ensures (View(), r) == Minted(old(View()), id, newId, testAllowed, g, lag)
    {
      if id >= |orders.orders| { return Err(NoSuchOrder); }
      if !testAllowed { return Err(TestOrderBlocked); }
      var order := orders.orders[id];
      if order.status != AwaitingPayment { return Err(PaymentNotDue); }
      if order.paymentIntent.Some? {
        var i := order.paymentIntent.value;
        if !g.readable || i !in stripe { return Err(StripeUnreadable); }
        var existing := stripe[i];
        if !existing.automatic && Replaceable(existing.status) {
          if g.cancellable { stripe := stripe[i := existing.(status := Canceled)]; }
        } else if existing.status != Canceled {
          if existing.amount != order.money.total {
            if !AmountMutable(existing.status) { return Err(PaymentInProgress); }
            if !g.writable { return Err(StripeRefused); }
            stripe := stripe[i := existing.(amount := order.money.total)];
          }
          return Ok(i);
        }
      }
      r := CreateIntent(id, newId, g, lag);
    }
  }

  class ReservationProcessor {
    const payment: PaymentService

    constructor (payment: PaymentService)
      ensures this.payment == payment
    {
      this.payment := payment;
    }

    method Process(key: JobKey, up: bool, again: bool, lag: nat)
      modifies payment, payment.orders, payment.orders.inventory
      ensures payment.View() == Fired(old(payment.View()), key, up, again, lag)
    {
      var shop := payment.orders;
      var id := key.order;
      ghost var before := payment.View();
      shop.jobs := shop.jobs - {key};
      assert payment.View() == before.(shop := before.shop.(jobs := before.shop.jobs - {key}));
      if id >= |shop.orders| { return; }
      var order := shop.orders[id];
      if !Open(order.status) { return; }
      if order.expiresAt.Some? && order.expiresAt.value > shop.now { return; }
      Expire(key, up, again, lag);
    }

    /** Asks Stripe before letting the stock go. */
    method Expire(key: JobKey, up: bool, again: bool, lag: nat)
      requires key.order < |payment.orders.orders|
      modifies payment, payment.orders, payment.orders.inventory
      ensures payment.View() == Expired(old(payment.View()), key, up, again, lag)
    {
      var shop := payment.orders;
      var id := key.order;
      ghost var before := payment.View();
      var state := NoMoney;
      if shop.orders[id].paymentIntent.Some? {
        state := payment.IntentState(id, up, again);
      }
      assert (payment.View(), state) == IntentStateOf(before, id, up, again);
      if state == MoneyHeld { return; }
      assert payment.View() == before;
      if state == InFlight {
        shop.orders := shop.orders[id := shop.orders[id].(expiresAt := Some(shop.now + RESERVATION_GRACE_MS))];
        shop.jobs := shop.jobs[key := shop.now + lag + RESERVATION_GRACE_MS];
        return;
      }
      var _ := shop.Transition(id, Cancelled, "Reservation expired — payment timeout", None);
    }
  }
}
