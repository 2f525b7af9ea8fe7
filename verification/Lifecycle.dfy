/**
 * Whole runs of the shop: customers, administrators, Stripe, the sweep and the
 * reservation timer take steps in any order, any number of times.
 */
module Lifecycle {
  import opened Common
  import opened Inventory
  import opened Orders
  import opened OrderInvariants
  import opened Payments

  datatype Step =
    | InitiateStep(cart: Option<Cart>, pricing: Pricing, pricesOk: bool, lag: nat)
    | CreateFromCartStep(cart: Option<Cart>, pricesOk: bool, quote: Option<Quote>)
    | ShippingStep(id: nat, quote: Option<Quote>)
    | ReadyStep(id: nat, testAllowed: bool, freeShipping: bool, pickupOk: bool)
    | MintStep(id: nat, newId: string, testAllowed: bool, gateway: Gateway, lag: nat)
    | AdminStep(id: nat, to: Status, note: string, admin: string)
    | ReturnClosedStep(id: nat)
    | WebhookStep(intent: string, crash: bool)
    | ReconcileStep(id: nat, up: bool, crash: bool)
    | SweepStep(ids: seq<nat>, unread: set<nat>)
    | TimerStep(key: JobKey, up: bool, again: bool, lag: nat)
    | FailedStep(event: string, intent: string, lag: nat)
    | RefundStep(event: string, charge: string, id: nat, amount: int, crash: bool)
    | AdjustStep(variant: Variant, delta: int)
    | RestockStep(variant: Variant, quantity: nat, order: nat)
    | StripeStep(intent: string, status: IntentStatus)
    | TickStep(ms: nat)

  function OnShop(w: World, reply: Reply): World {
    w.(shop := reply.shop)
  }

  /** A step that is not enabled changes nothing. Succeeded and cancelled intents are final at Stripe. */
  function Next(w: World, step: Step): World {
    match step
    case InitiateStep(cart, p, pricesOk, lag) => OnShop(w, Initiated(w.shop, cart, p, pricesOk, lag))
    case CreateFromCartStep(cart, pricesOk, quote) => OnShop(w, PlacedFromCart(w.shop, cart, pricesOk, quote))
    case ShippingStep(id, quote) => OnShop(w, ShippingUpdated(w.shop, id, quote))
    case ReadyStep(id, testAllowed, freeShipping, pickupOk) => OnShop(w, MadeReady(w.shop, id, testAllowed, freeShipping, pickupOk))
    case MintStep(id, newId, testAllowed, g, lag) =>
      if newId in w.stripe then w else Minted(w, id, newId, testAllowed, g, lag).0
    case AdminStep(id, to, note, admin) =>
      OnShop(w, if to == Paid then MarkedPaid(w.shop, id, note) else Transitioned(w.shop, id, to, note, Some(admin)))
    case ReturnClosedStep(id) => OnShop(w, Transitioned(w.shop, id, Refunded, "Fully refunded via returns", None))
    case WebhookStep(i, crash) => if i in w.stripe && w.stripe[i].status == Succeeded then Paying(w, i, w.stripe[i], crash) else w
    case ReconcileStep(id, up, crash) => Reconciled(w, id, up, crash).0
    case SweepStep(ids, unread) => Swept(w, ids, unread).0
    case TimerStep(key, up, again, lag) => if key in w.shop.jobs && w.shop.jobs[key] <= w.shop.now then Fired(w, key, up, again, lag) else w
    case FailedStep(event, i, lag) => if i in w.stripe then PaymentFailed(w, event, i, w.stripe[i], lag) else w
    case RefundStep(event, charge, id, amount, crash) => ChargeRefunded(w, event, charge, id, amount, crash)
    case AdjustStep(v, delta) =>
      var r := Adjusted(w.shop.book, v, delta);
      if r.Ok? then w.(shop := w.shop.(book := r.value)) else w
    case RestockStep(v, q, o) => w.(shop := w.shop.(book := Applied(w.shop.book, Restock, v, q, Some(o))))
    case StripeStep(i, status) =>
      if i in w.stripe && w.stripe[i].status !in {Succeeded, Canceled} then w.(stripe := w.stripe[i := w.stripe[i].(status := status)]) else w
    case TickStep(ms) => w.(shop := w.shop.(now := w.shop.now + ms))
  }

  function Run(w: World, steps: seq<Step>): World {
    if steps == [] then w else Next(Run(w, steps[..|steps| - 1]), steps[|steps| - 1])
  }

  lemma {:induction false} RunFirst(w: World, step: Step, rest: seq<Step>)
    ensures Run(w, [step] + rest) == Run(Next(w, step), rest)
  {
    var steps := [step] + rest;
    if rest == [] {
      assert steps[..0] == [] && steps == [step];
      assert Run(w, [step]) == Next(Run(w, []), step);
    } else {
      assert steps[..|steps| - 1] == [step] + rest[..|rest| - 1];
      RunFirst(w, step, rest[..|rest| - 1]);
    }
  }

  /** A shop that has just opened: stock on the shelves, nothing sold. */
  function Opened(opening: map<Variant, int>): World {
    World(Shop(Book(map v | v in opening :: Stock(opening[v], 0, 0), []), [], map[], multiset{}, multiset{}, 0), map[], map[])
  }

  // ── The invariant over runs ────────────────────────────────────────────

  ghost predicate RowKeyed(ledger: map<LedgerKey, LedgerRow>, key: LedgerKey)
    requires key in ledger
  {
    && (ledger[key].kind == Charge && ledger[key].succeeded ==> key == ForIntent(ledger[key].transaction))
    && (key.ForIntent? ==> ledger[key].kind == Charge && ledger[key].succeeded && ledger[key].transaction == key.intent)
  }

  /** Money received has one ledger row per intent, whichever path wrote it. */
  ghost predicate LedgerOk(w: World) {
    forall key :: key in w.ledger ==> RowKeyed(w.ledger, key)
  }

  ghost predicate GoodWorld(opening: map<Variant, int>, w: World) {
    Good(opening, w.shop) && LedgerOk(w)
  }

  lemma RecordedGood(opening: map<Variant, int>, w: World, key: LedgerKey, row: LedgerRow)
    requires GoodWorld(opening, w)
    requires row.kind == Charge && row.succeeded ==> key == ForIntent(row.transaction)
    requires key.ForIntent? ==> row.kind == Charge && row.succeeded && row.transaction == key.intent
    ensures GoodWorld(opening, Recorded(w, key, row).0)
  {
    var w' := Recorded(w, key, row).0;
    forall k | k in w'.ledger ensures RowKeyed(w'.ledger, k) {
      if k in w.ledger { assert RowKeyed(w.ledger, k); }
    }
  }

  lemma PayingGood(opening: map<Variant, int>, w: World, i: string, intent: Intent, crash: bool)
    requires GoodWorld(opening, w)
    ensures GoodWorld(opening, Paying(w, i, intent, crash))
  {
    if intent.order.Some? && intent.order.value < |w.shop.orders| {
      var id := intent.order.value;
      RecordedGood(opening, w, ForIntent(i), ChargeRow(id, i, intent.amount));
      ConfirmedOutcome(opening, w.shop, id, i);
    }
  }

  lemma ReconciledGood(opening: map<Variant, int>, w: World, id: nat, up: bool, crash: bool)
    requires GoodWorld(opening, w)
    ensures GoodWorld(opening, Reconciled(w, id, up, crash).0)
  {
    var i := SucceededIntent(w, id, up);
    if i.Some? {
      RecordedGood(opening, w, ForIntent(i.value), ChargeRow(id, i.value, w.stripe[i.value].amount));
      ConfirmedOutcome(opening, w.shop, id, i.value);
    }
  }

  lemma {:induction false} SweptGood(opening: map<Variant, int>, w: World, ids: seq<nat>, unread: set<nat>)
    requires GoodWorld(opening, w)
    ensures GoodWorld(opening, Swept(w, ids, unread).0)
  {
    if ids != [] {
      SweptGood(opening, w, ids[..|ids| - 1], unread);
      ReconciledGood(opening, Swept(w, ids[..|ids| - 1], unread).0, ids[|ids| - 1], ids[|ids| - 1] !in unread, false);
    }
  }

  lemma PostponedGood(opening: map<Variant, int>, w: World, key: JobKey, lag: nat)
    requires GoodWorld(opening, w)
    ensures GoodWorld(opening, Postponed(w, key, lag))
  {
    if key.order < |w.shop.orders| {
      assert OrderOk(w.shop.orders[key.order]);
      var late := Postponed(w, key, lag).shop;
      RelabelledGood(opening, w.shop, late, key.order, late.orders[key.order]);
    }
  }

  /** Only open orders, which no one has paid, are cancelled by the timer. */
  lemma TimedOutGood(opening: map<Variant, int>, s: Shop, id: nat, note: string)
    requires Good(opening, s) && id < |s.orders| && Open(s.orders[id].status)
    ensures Good(opening, Transitioned(s, id, Cancelled, note, None).shop)
  {
    assert OrderOk(s.orders[id]);
    TransitionedGood(opening, s, id, Cancelled, note, None);
  }

  lemma ExpiredGood(opening: map<Variant, int>, w: World, key: JobKey, up: bool, again: bool, lag: nat)
    requires GoodWorld(opening, w) && key.order < |w.shop.orders| && Open(w.shop.orders[key.order].status)
    ensures GoodWorld(opening, Expired(w, key, up, again, lag))
  {
    match IntentStateOf(w, key.order, up, again).1
    case MoneyHeld => ReconciledGood(opening, w, key.order, again, false);
    case InFlight => PostponedGood(opening, w, key, lag);
    case NoMoney => TimedOutGood(opening, w.shop, key.order, "Reservation expired — payment timeout");
  }

  lemma FiredGood(opening: map<Variant, int>, w: World, key: JobKey, up: bool, again: bool, lag: nat)
    requires GoodWorld(opening, w)
    ensures GoodWorld(opening, Fired(w, key, up, again, lag))
  {
    var id, done := key.order, w.(shop := w.shop.(jobs := w.shop.jobs - {key}));
    RequeuedGood(opening, w.shop, done.shop);
    if id < |w.shop.orders| && Open(w.shop.orders[id].status) {
      ExpiredGood(opening, done, key, up, again, lag);
    }
  }

  lemma MintedGood(opening: map<Variant, int>, w: World, id: nat, newId: string, testAllowed: bool, g: Gateway, lag: nat)
    requires GoodWorld(opening, w)
    ensures GoodWorld(opening, Minted(w, id, newId, testAllowed, g, lag).0)
  {
    if id < |w.shop.orders| {
      assert OrderOk(w.shop.orders[id]);
      var linked := WithIntent(w.shop, id, newId);
      RelabelledGood(opening, w.shop, linked, id, linked.orders[id]);
      ExtendedGood(opening, linked, id, lag);
    }
  }

  lemma RefundedGood(opening: map<Variant, int>, w: World, event: string, charge: string, id: nat, amount: int, crash: bool)
    requires GoodWorld(opening, w)
    ensures GoodWorld(opening, ChargeRefunded(w, event, charge, id, amount, crash))
  {
    RecordedGood(opening, w, ForEvent(event), LedgerRow(id, charge, Refund, true, amount));
    TransitionedGood(opening, w.shop, id, Refunded, "Refunded via Stripe", None);
  }

  lemma FailedGood(opening: map<Variant, int>, w: World, event: string, i: string, intent: Intent, lag: nat)
    requires GoodWorld(opening, w)
    ensures GoodWorld(opening, PaymentFailed(w, event, i, intent, lag))
  {
    if intent.order.Some? {
      RecordedGood(opening, w, ForEvent(event), LedgerRow(intent.order.value, i, Charge, false, intent.amount));
      ExtendedGood(opening, w.shop, intent.order.value, lag);
    }
  }

  /** Steps that may settle a payment. */
  predicate Settling(step: Step) {
    step.WebhookStep? || step.ReconcileStep? || step.SweepStep? || step.TimerStep?
  }

  predicate ByStripe(step: Step) {
    Settling(step) || step.MintStep? || step.FailedStep? || step.RefundStep?
  }

  lemma SettlingNextGood(opening: map<Variant, int>, w: World, step: Step)
    requires GoodWorld(opening, w) && Settling(step)
    ensures GoodWorld(opening, Next(w, step))
  {
    match step
    case WebhookStep(i, crash) => if i in w.stripe { PayingGood(opening, w, i, w.stripe[i], crash); }
    case ReconcileStep(id, up, crash) => ReconciledGood(opening, w, id, up, crash);
    case SweepStep(ids, unread) => SweptGood(opening, w, ids, unread);
    case TimerStep(key, up, again, lag) => FiredGood(opening, w, key, up, again, lag);
  }

  lemma StripeNextGood(opening: map<Variant, int>, w: World, step: Step)
    requires GoodWorld(opening, w) && ByStripe(step)
    ensures GoodWorld(opening, Next(w, step))
  {
    match step
    case MintStep(id, newId, testAllowed, g, lag) => MintedGood(opening, w, id, newId, testAllowed, g, lag);
    case FailedStep(event, i, lag) => if i in w.stripe { FailedGood(opening, w, event, i, w.stripe[i], lag); }
    case RefundStep(event, charge, id, amount, crash) => RefundedGood(opening, w, event, charge, id, amount, crash);
    case _ => SettlingNextGood(opening, w, step);
  }

  lemma ShopNextGood(opening: map<Variant, int>, w: World, step: Step)
    requires GoodWorld(opening, w) && !ByStripe(step)
    ensures GoodWorld(opening, Next(w, step))
  {
    match step
    case InitiateStep(cart, p, pricesOk, lag) => InitiatedGood(opening, w.shop, cart, p, pricesOk, lag);
    case CreateFromCartStep(cart, pricesOk, quote) => PlacedFromCartGood(opening, w.shop, cart, pricesOk, quote);
    case ShippingStep(id, quote) => ShippingUpdatedGood(opening, w.shop, id, quote);
    case ReadyStep(id, testAllowed, freeShipping, pickupOk) => MadeReadyGood(opening, w.shop, id, testAllowed, freeShipping, pickupOk);
    case AdminStep(id, to, note, admin) =>
      if to == Paid {
        MarkedPaidGood(opening, w.shop, id, note);
      } else {
        TransitionedGood(opening, w.shop, id, to, note, Some(admin));
      }
    case ReturnClosedStep(id) => TransitionedGood(opening, w.shop, id, Refunded, "Fully refunded via returns", None);
    case AdjustStep(v, delta) => if Adjusted(w.shop.book, v, delta).Ok? { AdjustedGood(opening, w.shop, v, delta); }
    case RestockStep(v, q, o) => RestockedGood(opening, w.shop, v, q, o);
    case StripeStep(i, status) =>
    case TickStep(ms) => RequeuedGood(opening, w.shop, w.shop.(now := w.shop.now + ms));
  }

  lemma NextGood(opening: map<Variant, int>, w: World, step: Step)
    requires GoodWorld(opening, w)
    ensures GoodWorld(opening, Next(w, step))
  {
    if ByStripe(step) { StripeNextGood(opening, w, step); } else { ShopNextGood(opening, w, step); }
  }

  lemma MarkedPaidGood(opening: map<Variant, int>, s: Shop, id: nat, note: string)
    requires Good(opening, s)
    ensures Good(opening, MarkedPaid(s, id, note).shop)
  {
    if id < |s.orders| {
      ConfirmedOutcome(opening, s, id, ManualIntent(s.orders[id], note));
    }
  }

  lemma AdjustedGood(opening: map<Variant, int>, s: Shop, v: Variant, delta: int)
    requires Good(opening, s) && Adjusted(s.book, v, delta).Ok?
    ensures Good(opening, s.(book := Adjusted(s.book, v, delta).value))
  {
    assert RowOk(opening, s, v);
    SuppliedGood(opening, s, ManualAdjustment, v, delta, None);
  }

  lemma RestockedGood(opening: map<Variant, int>, s: Shop, v: Variant, q: nat, o: nat)
    requires Good(opening, s)
    ensures Good(opening, s.(book := Applied(s.book, Restock, v, q, Some(o))))
  {
    if v in s.book.rows { assert RowOk(opening, s, v); }
    SuppliedGood(opening, s, Restock, v, q, Some(o));
  }

  lemma OpenedGood(opening: map<Variant, int>)
    requires forall v :: v in opening ==> 0 <= opening[v]
    ensures GoodWorld(opening, Opened(opening))
  {
    var s := Opened(opening).shop;
    forall j: nat ensures CompletionOk(s, j) {}
    forall code: string ensures RedemptionOk(s, code) {}
  }

  lemma {:induction false} RunGood(opening: map<Variant, int>, w: World, steps: seq<Step>)
    requires GoodWorld(opening, w)
    ensures GoodWorld(opening, Run(w, steps))
  {
    if steps != [] {
      RunGood(opening, w, steps[..|steps| - 1]);
      NextGood(opening, Run(w, steps[..|steps| - 1]), steps[|steps| - 1]);
    }
  }

  /**
   * In every reachable state each bucket is the sum over the orders in it,
   * nothing is oversold, no unit is lost or invented, and the log replays.
   */
  lemma StockInEveryRun(opening: map<Variant, int>, steps: seq<Step>, v: Variant)
    requires forall u :: u in opening ==> 0 <= opening[u]
    requires v in opening
    ensures var s := Run(Opened(opening), steps).shop;
            && v in s.book.rows
            && s.book.rows[v].reserved == Tally(s.orders, HeldBy(InReserved, v))
            && s.book.rows[v].committed == Tally(s.orders, HeldBy(InCommitted, v))
            && 0 <= s.book.rows[v].available == Balance(opening, s.book.log, v)
            && s.book.rows[v].available + s.book.rows[v].reserved + s.book.rows[v].committed + NetShipped(s.book.log, v) == opening[v]
            && forall i :: 0 <= i < |s.book.log| ==> RowReplays(opening, s.book.log, i)
  {
    OpenedGood(opening);
    RunGood(opening, Opened(opening), steps);
    assert RowOk(opening, Run(Opened(opening), steps).shop, v);
  }

  /** Coupon uses in every reachable state: one per paid order carrying the code. */
  lemma CouponUsesInEveryRun(opening: map<Variant, int>, steps: seq<Step>, code: string)
    requires forall u :: u in opening ==> 0 <= opening[u]
    ensures Run(Opened(opening), steps).shop.couponUses[code] == Tally(Run(Opened(opening), steps).shop.orders, RedeemedBy(code))
  {
    OpenedGood(opening);
    RunGood(opening, Opened(opening), steps);
    assert RedemptionOk(Run(Opened(opening), steps).shop, code);
  }
}
