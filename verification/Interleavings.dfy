/**
 * Calls that read first and write later, any number of them in flight.
 *
 * Checkout's first step looks the cart's order up, and only afterwards cancels,
 * re-prices or creates one and queues its expiry job. A status change reads the
 * status before the write that depends on it: transition in a transaction of
 * its own, readyForPayment in none. A payment confirmation reads the order and
 * then restores, links and walks it to Paid one database call at a time. Here
 * each of those calls is one action, and the steps of Lifecycle happen in between.
 */
module Interleavings {
  import opened Common
  import opened Inventory
  import opened Orders
  import opened OrderInvariants
  import opened Payments
  import opened Lifecycle
  import opened Reservations

  /**
   * What a call in flight is about to do, with what it has read. `draft`: the
   * confirmation found a draft, so it walks through awaiting payment first;
   * `paying`: it has the step to Paid still to go.
   */
  datatype Call =
    | Rebuilding(cart: Cart, pricing: Pricing, pricesOk: bool, id: nat)
    | Resuming(cart: Cart, pricing: Pricing, id: nat)
    | Building(cart: Cart, pricing: Pricing, pricesOk: bool)
    | Placed(id: nat)
    | Judging(id: nat, intent: string)
    | Restoring(id: nat, intent: string)
    | Linking(id: nat, intent: string, draft: bool)
    | Walking(id: nat, draft: bool)
    | Writing(id: nat, prev: Status, to: Status, note: string, admin: Option<string>, paying: bool)
    | Over

  datatype System = System(world: World, calls: seq<Call>)

  datatype Action =
    | Whole(step: Step)
    | LookUp(cart: Option<Cart>, pricing: Pricing, pricesOk: bool)
    | ReadStatus(id: nat, to: Status, note: string, admin: Option<string>)
    | Confirm(id: nat, intent: string)
    | Proceed(call: nat, lag: nat)

  function LookedUp(s: Shop, c: Cart, p: Pricing, pricesOk: bool): Call {
    var found := FindOpen(s.orders, c.token);
    if found.None? then Building(c, p, pricesOk)
    else if Outdated(s.orders[found.value], c.lines) then Rebuilding(c, p, pricesOk, found.value)
    else Resuming(c, p, found.value)
  }

  /** What confirmPayment does next, once it has read an order that is not paid. */
  function Confirming(s: Shop, id: nat, intent: string): Call
    requires id < |s.orders|
  {
    if s.orders[id].status == Cancelled then Judging(id, intent) else Linking(id, intent, s.orders[id].status == Draft)
  }

  /** Stripe's settlements come after their ledger row, under an intent of the order that has succeeded. */
  predicate Settleable(w: World, id: nat, intent: string) {
    && id < |w.shop.orders| && w.shop.orders[id].status != Paid
    && intent in w.stripe && w.stripe[intent].status == Succeeded && w.stripe[intent].order == Some(id)
    && ForIntent(intent) in w.ledger
  }

  /** A write whose transition was allowed on the status it read. */
  predicate Valid(s: Shop, call: Call) {
    call.Writing? && call.id < |s.orders| && call.to in AllowedFrom(call.prev)
  }

  /** A confirmation's next transition, on the status it reads now. */
  function Walked(s: Shop, id: nat, draft: bool): Call {
    var to := if draft then AwaitingPayment else Paid;
    if id < |s.orders| && to in AllowedFrom(s.orders[id].status)
    then Writing(id, s.orders[id].status, to, if draft then "Payment initiated" else "Payment confirmed", None, draft)
    else Over
  }

  /** The next database call of a call in flight. */
  function Carried(w: World, call: Call, lag: nat): (World, Call) {
    match call
    case Rebuilding(c, p, pricesOk, id) =>
      var r := Transitioned(w.shop, id, Cancelled, REBUILT_NOTE, None);
      if r.error.Some? then (w, Over) else (OnShop(w, r), Building(c, p, pricesOk))
    case Resuming(c, p, id) => (if id < |w.shop.orders| then w.(shop := Resumed(w.shop, id, c.lines, p)) else w, Over)
    case Building(c, p, pricesOk) =>
      if !pricesOk then (w, Over)
      else
        var r := Created(w.shop, NewDraft(w.shop, c, p));
        if r.Err? then (w, Over) else (w.(shop := r.value), Placed(|w.shop.orders|))
    case Placed(id) => (w.(shop := w.shop.(jobs := Queued(w.shop.jobs, FirstExpiry(id), w.shop.now + lag + RESERVATION_TTL_MS))), Over)
    case Judging(id, i) => (w, if id < |w.shop.orders| && ByTimeout(w.shop.orders[id].history) then Restoring(id, i) else Over)
    case Restoring(id, i) =>
      if id >= |w.shop.orders| || Reinstated(w.shop, id).Err? then (w, Over)
      else (w.(shop := Reinstated(w.shop, id).value), Linking(id, i, false))
    case Linking(id, i, draft) =>
      if id >= |w.shop.orders| then (w, Over) else (w.(shop := Linked(w.shop, id, i)), Walking(id, draft))
    case Walking(id, draft) => (w, Walked(w.shop, id, draft))
    case Writing(id, prev, to, note, admin, paying) =>
      if Valid(w.shop, call) then (w.(shop := Committed(w.shop, id, prev, to, note, admin)), if paying then Walking(id, false) else Over)
      else (w, Over)
    case Over => (w, Over)
  }

  function Acted(sys: System, action: Action): System {
    match action
    case Whole(step) => sys.(world := Next(sys.world, step))
    case LookUp(cart, p, pricesOk) =>
      if cart.None? || cart.value.lines == [] then sys
      else sys.(calls := sys.calls + [LookedUp(sys.world.shop, cart.value, p, pricesOk)])
    case ReadStatus(id, to, note, admin) =>
      if id < |sys.world.shop.orders| && to in AllowedFrom(sys.world.shop.orders[id].status)
      then sys.(calls := sys.calls + [Writing(id, sys.world.shop.orders[id].status, to, note, admin, false)])
      else sys
    case Confirm(id, i) =>
      if Settleable(sys.world, id, i) then sys.(calls := sys.calls + [Confirming(sys.world.shop, id, i)]) else sys
    case Proceed(n, lag) =>
      if n < |sys.calls| then
        var (w, call) := Carried(sys.world, sys.calls[n], lag);
        System(w, sys.calls[n := call])
      else sys
  }

  function ActedAll(sys: System, actions: seq<Action>): System {
    if actions == [] then sys else Acted(ActedAll(sys, actions[..|actions| - 1]), actions[|actions| - 1])
  }

  // ── Calls nobody interrupts ────────────────────────────────────────────

  function Remaining(call: Call): nat {
    match call
    case Rebuilding(_, _, _, _) => 3
    case Building(_, _, _) => 2
    case Judging(_, _) => 7
    case Restoring(_, _) => 6
    case Linking(_, _, _) => 5
    case Walking(_, draft) => if draft then 4 else 2
    case Writing(_, _, _, _, _, paying) => if paying then 3 else 1
    case Over => 0
    case _ => 1
  }

  /** A call's database calls one after the other. */
  function Finished(w: World, call: Call, lag: nat): World
    decreases Remaining(call)
  {
    if call.Over? then w else
      var (w', call') := Carried(w, call, lag);
      Finished(w', call', lag)
  }

  /** Uninterrupted, the calls of checkout's first step add up to the step as a whole. */
  lemma InitiateIsItsCalls(w: World, c: Cart, p: Pricing, pricesOk: bool, lag: nat)
    requires c.lines != []
    ensures Finished(w, LookedUp(w.shop, c, p, pricesOk), lag) == OnShop(w, Initiated(w.shop, Some(c), p, pricesOk, lag))
  {
    var found := FindOpen(w.shop.orders, c.token);
    if found.None? {
      BuildingIsDraftPlaced(w, c, p, pricesOk, lag);
    } else if Outdated(w.shop.orders[found.value], c.lines) {
      var r := Transitioned(w.shop, found.value, Cancelled, REBUILT_NOTE, None);
      assert Cancelled in AllowedFrom(w.shop.orders[found.value].status);
      BuildingIsDraftPlaced(OnShop(w, r), c, p, pricesOk, lag);
    }
  }

  lemma BuildingIsDraftPlaced(w: World, c: Cart, p: Pricing, pricesOk: bool, lag: nat)
    ensures Finished(w, Building(c, p, pricesOk), lag) == OnShop(w, DraftPlaced(w.shop, c, p, pricesOk, lag))
  {
    var r := Created(w.shop, NewDraft(w.shop, c, p));
    if pricesOk && r.Ok? {
      assert Finished(w.(shop := r.value), Placed(|w.shop.orders|), lag) == OnShop(w, DraftPlaced(w.shop, c, p, pricesOk, lag));
    }
  }

  /** So do the read and the write of a status change, and of proceeding to payment. */
  lemma TransitionIsItsCalls(s: Shop, id: nat, to: Status, note: string, admin: Option<string>)
    requires id < |s.orders| && to in AllowedFrom(s.orders[id].status)
    ensures Reply(Committed(s, id, s.orders[id].status, to, note, admin), None) == Transitioned(s, id, to, note, admin)
    ensures s.orders[id].status == Draft && to == AwaitingPayment && note == "Customer proceeded to payment" && admin.None? ==>
              MadeReady(s, id, true, true, true) == Reply(Committed(s, id, Draft, AwaitingPayment, note, None), None)
  {
  }

  lemma WalkingIsTransitioned(w: World, id: nat, lag: nat)
    requires id < |w.shop.orders|
    ensures Finished(w, Walking(id, false), lag) == OnShop(w, Transitioned(w.shop, id, Paid, "Payment confirmed", None))
  {
    var call := Walked(w.shop, id, false);
    assert Finished(w, Walking(id, false), lag) == Finished(w, call, lag);
    if call.Writing? { assert Finished(w, call, lag) == Finished(Carried(w, call, lag).0, Over, lag); }
  }

  lemma LinkingIsPaidFrom(w: World, id: nat, intent: string, status: Status, lag: nat)
    requires id < |w.shop.orders| && (status == Draft ==> w.shop.orders[id].status == Draft)
    ensures Finished(w, Linking(id, intent, status == Draft), lag) == OnShop(w, PaidFrom(w.shop, id, status, intent))
  {
    var linked := w.(shop := Linked(w.shop, id, intent));
    if status == Draft {
      var write := Walked(linked.shop, id, true);
      var waiting := Carried(linked, write, lag).0;
      assert waiting == OnShop(linked, Transitioned(linked.shop, id, AwaitingPayment, "Payment initiated", None));
      assert Finished(linked, Walking(id, true), lag) == Finished(linked, write, lag) == Finished(waiting, Walking(id, false), lag);
      WalkingIsTransitioned(waiting, id, lag);
    } else {
      WalkingIsTransitioned(linked, id, lag);
    }
  }

  /** And so do the calls of a payment confirmation. */
  lemma ConfirmIsItsCalls(w: World, id: nat, intent: string, lag: nat)
    requires id < |w.shop.orders| && w.shop.orders[id].status != Paid
    ensures Finished(w, Confirming(w.shop, id, intent), lag) == OnShop(w, Confirmed(w.shop, id, intent))
  {
    var status := w.shop.orders[id].status;
    if status == Cancelled {
      var next := Carried(w, Judging(id, intent), lag).1;
      assert Finished(w, Judging(id, intent), lag) == Finished(w, next, lag);
      if next.Restoring? {
        var (restored, after) := Carried(w, next, lag);
        assert Finished(w, next, lag) == Finished(restored, after, lag);
        if after.Linking? { LinkingIsPaidFrom(restored, id, intent, status, lag); }
      }
    } else {
      LinkingIsPaidFrom(w, id, intent, status, lag);
    }
  }

  // ── Stock, whatever is read when ───────────────────────────────────────

  lemma SameStock(opening: map<Variant, int>, s: Shop, s': Shop)
    requires StockOk(opening, s) && s'.book == s.book && s'.orders == s.orders
    ensures StockOk(opening, s')
  {
    forall v | v in s'.book.rows ensures RowOk(opening, s', v) { assert RowOk(opening, s, v); }
  }

  lemma TransitionedStock(opening: map<Variant, int>, s: Shop, id: nat, to: Status, note: string, admin: Option<string>)
    requires StockOk(opening, s)
    ensures StockOk(opening, Transitioned(s, id, to, note, admin).shop)
  {
    if id < |s.orders| && to in AllowedFrom(s.orders[id].status) {
      StaleTransitionIff(opening, s, id, s.orders[id].status, to, note, admin);
    }
  }

  lemma ConfirmedStock(opening: map<Variant, int>, s: Shop, id: nat, i: string)
    requires StockOk(opening, s)
    ensures StockOk(opening, Confirmed(s, id, i).shop)
  {
    if id < |s.orders| && s.orders[id].status != Paid {
      var status := s.orders[id].status;
      var restored := if status == Cancelled then Restored(s, id).shop else s;
      if status == Cancelled && Restored(s, id).error.None? { ReinstatedStockIff(opening, s, id); }
      RestoredJobs(s, id);
      PaidFromStock(opening, restored, id, status, i);
    }
  }

  lemma PaidFromStock(opening: map<Variant, int>, s: Shop, id: nat, status: Status, i: string)
    requires StockOk(opening, s) && id < |s.orders|
    ensures StockOk(opening, PaidFrom(s, id, status, i).shop)
  {
    var linked := Linked(s, id, i);
    RelabelledStock(opening, s, linked, id, linked.orders[id]);
    TransitionedStock(opening, linked, id, AwaitingPayment, "Payment initiated", None);
    var waiting := if status == Draft then Transitioned(linked, id, AwaitingPayment, "Payment initiated", None).shop else linked;
    TransitionedStock(opening, waiting, id, Paid, "Payment confirmed", None);
  }

  lemma DraftPlacedStock(opening: map<Variant, int>, s: Shop, c: Cart, p: Pricing, pricesOk: bool, lag: nat)
    requires StockOk(opening, s)
    ensures StockOk(opening, DraftPlaced(s, c, p, pricesOk, lag).shop)
  {
    var o := NewDraft(s, c, p);
    if pricesOk && Created(s, o).Ok? {
      CreatedStock(opening, s, o);
      SameStock(opening, Created(s, o).value, DraftPlaced(s, c, p, pricesOk, lag).shop);
    }
  }

  lemma ResumedStock(opening: map<Variant, int>, s: Shop, id: nat, lines: seq<Line>, p: Pricing)
    requires StockOk(opening, s) && id < |s.orders|
    ensures StockOk(opening, Resumed(s, id, lines, p))
  {
    var s' := Resumed(s, id, lines, p);
    RelabelledStock(opening, s, s', id, s'.orders[id]);
  }

  lemma InitiatedStock(opening: map<Variant, int>, s: Shop, cart: Option<Cart>, p: Pricing, pricesOk: bool, lag: nat)
    requires StockOk(opening, s)
    ensures StockOk(opening, Initiated(s, cart, p, pricesOk, lag).shop)
  {
    if cart.Some? && cart.value.lines != [] {
      var c := cart.value;
      var found := FindOpen(s.orders, c.token);
      if found.None? {
        DraftPlacedStock(opening, s, c, p, pricesOk, lag);
      } else if Outdated(s.orders[found.value], c.lines) {
        TransitionedStock(opening, s, found.value, Cancelled, REBUILT_NOTE, None);
        DraftPlacedStock(opening, Transitioned(s, found.value, Cancelled, REBUILT_NOTE, None).shop, c, p, pricesOk, lag);
      } else {
        ResumedStock(opening, s, found.value, c.lines, p);
      }
    }
  }

  lemma CheckoutStock(opening: map<Variant, int>, w: World, step: Step)
    requires StockOk(opening, w.shop) && (step.CreateFromCartStep? || step.ShippingStep? || step.ReadyStep?)
    ensures StockOk(opening, Next(w, step).shop)
  {
    var s, s' := w.shop, Next(w, step).shop;
    if s' != s {
      match step
      case CreateFromCartStep(_, _, _) => CreatedStock(opening, s, s'.orders[|s.orders|]);
      case ShippingStep(id, _) => RelabelledStock(opening, s, s', id, s'.orders[id]);
      case ReadyStep(id, _, _, _) => StaleTransitionIff(opening, s, id, Draft, AwaitingPayment, "Customer proceeded to payment", None);
    }
  }

  lemma ExtendedStock(opening: map<Variant, int>, s: Shop, id: nat, lag: nat)
    requires StockOk(opening, s)
    ensures StockOk(opening, Extended(s, id, lag))
  {
    var s' := Extended(s, id, lag);
    if id < |s.orders| && Open(s.orders[id].status) {
      RelabelledStock(opening, s, s', id, s'.orders[id]);
    } else {
      SameStock(opening, s, s');
    }
  }

  lemma MintedStock(opening: map<Variant, int>, w: World, id: nat, newId: string, testAllowed: bool, g: Gateway, lag: nat)
    requires StockOk(opening, w.shop)
    ensures StockOk(opening, Minted(w, id, newId, testAllowed, g, lag).0.shop)
  {
    if id < |w.shop.orders| {
      var linked := WithIntent(w.shop, id, newId);
      RelabelledStock(opening, w.shop, linked, id, linked.orders[id]);
      ExtendedStock(opening, linked, id, lag);
    }
  }

  lemma ReconciledStock(opening: map<Variant, int>, w: World, id: nat, up: bool, crash: bool)
    requires StockOk(opening, w.shop)
    ensures StockOk(opening, Reconciled(w, id, up, crash).0.shop)
  {
    var i := SucceededIntent(w, id, up);
    if i.Some? { ConfirmedStock(opening, w.shop, id, i.value); }
  }

  lemma {:induction false} SweptStock(opening: map<Variant, int>, w: World, ids: seq<nat>, unread: set<nat>)
    requires StockOk(opening, w.shop)
    ensures StockOk(opening, Swept(w, ids, unread).0.shop)
  {
    if ids != [] {
      SweptStock(opening, w, ids[..|ids| - 1], unread);
      ReconciledStock(opening, Swept(w, ids[..|ids| - 1], unread).0, ids[|ids| - 1], ids[|ids| - 1] !in unread, false);
    }
  }

  lemma FiredStock(opening: map<Variant, int>, w: World, key: JobKey, up: bool, again: bool, lag: nat)
    requires StockOk(opening, w.shop)
    ensures StockOk(opening, Fired(w, key, up, again, lag).shop)
  {
    var done := Dropped(w, key);
    SameStock(opening, w.shop, done.shop);
    ReconciledStock(opening, done, key.order, again, false);
    TransitionedStock(opening, done.shop, key.order, Cancelled, "Reservation expired — payment timeout", None);
    if key.order < |w.shop.orders| {
      var late := Postponed(done, key, lag).shop;
      RelabelledStock(opening, done.shop, late, key.order, late.orders[key.order]);
    }
  }

  lemma PayingStock(opening: map<Variant, int>, w: World, i: string, intent: Intent, crash: bool)
    requires StockOk(opening, w.shop)
    ensures StockOk(opening, Paying(w, i, intent, crash).shop)
  {
    if intent.order.Some? { ConfirmedStock(opening, w.shop, intent.order.value, i); }
  }

  lemma SettlingStock(opening: map<Variant, int>, w: World, step: Step)
    requires StockOk(opening, w.shop) && Settling(step)
    ensures StockOk(opening, Next(w, step).shop)
  {
    match step
    case WebhookStep(i, crash) => if i in w.stripe { PayingStock(opening, w, i, w.stripe[i], crash); }
    case ReconcileStep(id, up, crash) => ReconciledStock(opening, w, id, up, crash);
    case SweepStep(ids, unread) => SweptStock(opening, w, ids, unread);
    case TimerStep(key, up, again, lag) => FiredStock(opening, w, key, up, again, lag);
  }

  lemma FailedStock(opening: map<Variant, int>, w: World, event: string, i: string, intent: Intent, lag: nat)
    requires StockOk(opening, w.shop)
    ensures StockOk(opening, PaymentFailed(w, event, i, intent, lag).shop)
  {
    if intent.order.Some? { ExtendedStock(opening, w.shop, intent.order.value, lag); }
  }

  lemma StripeStock(opening: map<Variant, int>, w: World, step: Step)
    requires StockOk(opening, w.shop) && ByStripe(step)
    ensures StockOk(opening, Next(w, step).shop)
  {
    match step
    case MintStep(id, newId, testAllowed, g, lag) => MintedStock(opening, w, id, newId, testAllowed, g, lag);
    case FailedStep(event, i, lag) => if i in w.stripe { FailedStock(opening, w, event, i, w.stripe[i], lag); }
    case RefundStep(_, _, id, _, _) => TransitionedStock(opening, w.shop, id, Refunded, "Refunded via Stripe", None);
    case _ => SettlingStock(opening, w, step);
  }

  lemma WarehouseStock(opening: map<Variant, int>, w: World, step: Step)
    requires StockOk(opening, w.shop) && (step.AdjustStep? || step.RestockStep?)
    ensures StockOk(opening, Next(w, step).shop)
  {
    match step
    case AdjustStep(v, delta) => if Adjusted(w.shop.book, v, delta).Ok? { AdjustedStock(opening, w.shop, v, delta); }
    case RestockStep(v, q, o) => RestockedStock(opening, w.shop, v, q, o);
  }

  lemma AdjustedStock(opening: map<Variant, int>, s: Shop, v: Variant, delta: int)
    requires StockOk(opening, s) && Adjusted(s.book, v, delta).Ok?
    ensures StockOk(opening, s.(book := Adjusted(s.book, v, delta).value))
  {
    assert RowOk(opening, s, v);
    SuppliedStock(opening, s, ManualAdjustment, v, delta, None);
  }

  lemma RestockedStock(opening: map<Variant, int>, s: Shop, v: Variant, q: nat, o: nat)
    requires StockOk(opening, s)
    ensures StockOk(opening, s.(book := Applied(s.book, Restock, v, q, Some(o))))
  {
    if v in s.book.rows { assert RowOk(opening, s, v); }
    SuppliedStock(opening, s, Restock, v, q, Some(o));
  }

  lemma NextStock(opening: map<Variant, int>, w: World, step: Step)
    requires StockOk(opening, w.shop)
    ensures StockOk(opening, Next(w, step).shop)
  {
    match step
    case InitiateStep(cart, p, pricesOk, lag) => InitiatedStock(opening, w.shop, cart, p, pricesOk, lag);
    case CreateFromCartStep(_, _, _) => CheckoutStock(opening, w, step);
    case ShippingStep(_, _) => CheckoutStock(opening, w, step);
    case ReadyStep(_, _, _, _) => CheckoutStock(opening, w, step);
    case AdminStep(id, to, note, admin) =>
      if to == Paid {
        if id < |w.shop.orders| { ConfirmedStock(opening, w.shop, id, ManualIntent(w.shop.orders[id], note)); }
      } else {
        TransitionedStock(opening, w.shop, id, to, note, Some(admin));
      }
    case ReturnClosedStep(id) => TransitionedStock(opening, w.shop, id, Refunded, "Fully refunded via returns", None);
    case AdjustStep(_, _) => WarehouseStock(opening, w, step);
    case RestockStep(_, _, _) => WarehouseStock(opening, w, step);
    case StripeStep(_, _) =>
    case TickStep(ms) => SameStock(opening, w.shop, w.shop.(now := w.shop.now + ms));
    case _ => StripeStock(opening, w, step);
  }

  predicate HoldsUnits(s: Shop, id: nat)
    requires id < |s.orders|
  {
    exists v :: v in s.book.rows && Demand(s.orders[id].lines, v) > 0
  }

  /** A write lands on an order whose units have left the bucket they were in when the call read the status. */
  ghost predicate WrongBucket(s: Shop, call: Call) {
    Valid(s, call) && HoldOf(call.prev) != HoldOf(s.orders[call.id].status) && HoldsUnits(s, call.id)
  }

  /** A restore reserves units for an order that holds them already. */
  ghost predicate ReservesTwice(s: Shop, call: Call) {
    && call.Restoring? && call.id < |s.orders| && Reinstated(s, call.id).Ok?
    && HoldOf(s.orders[call.id].status) != NoHold && HoldsUnits(s, call.id)
  }

  ghost predicate Misplaces(sys: System, action: Action) {
    && action.Proceed? && action.call < |sys.calls|
    && (WrongBucket(sys.world.shop, sys.calls[action.call]) || ReservesTwice(sys.world.shop, sys.calls[action.call]))
  }

  lemma CarriedStock(opening: map<Variant, int>, w: World, call: Call, lag: nat)
    requires StockOk(opening, w.shop)
    ensures StockOk(opening, Carried(w, call, lag).0.shop) <==> !WrongBucket(w.shop, call) && !ReservesTwice(w.shop, call)
  {
    var s := w.shop;
    match call
    case Rebuilding(_, _, _, id) => TransitionedStock(opening, s, id, Cancelled, REBUILT_NOTE, None);
    case Resuming(c, p, id) => if id < |s.orders| { ResumedStock(opening, s, id, c.lines, p); }
    case Building(c, p, _) => if Created(s, NewDraft(s, c, p)).Ok? { CreatedStock(opening, s, NewDraft(s, c, p)); }
    case Placed(_) => SameStock(opening, s, Carried(w, call, lag).0.shop);
    case Restoring(id, _) => if id < |s.orders| && Reinstated(s, id).Ok? { ReinstatedStockIff(opening, s, id); }
    case Linking(id, i, _) =>
      if id < |s.orders| { RelabelledStock(opening, s, Linked(s, id, i), id, Linked(s, id, i).orders[id]); }
    case Writing(id, prev, to, note, admin, _) => if Valid(s, call) { StaleTransitionIff(opening, s, id, prev, to, note, admin); }
    case _ =>
  }

  lemma ActedStock(opening: map<Variant, int>, sys: System, action: Action)
    requires StockOk(opening, sys.world.shop)
    ensures StockOk(opening, Acted(sys, action).world.shop) <==> !Misplaces(sys, action)
  {
    match action
    case Whole(step) => NextStock(opening, sys.world, step);
    case Proceed(n, lag) => if n < |sys.calls| { CarriedStock(opening, sys.world, sys.calls[n], lag); }
    case _ =>
  }

  /** The stock sums hold after every action. */
  ghost predicate StockAlways(opening: map<Variant, int>, sys: System, actions: seq<Action>) {
    && StockOk(opening, ActedAll(sys, actions).world.shop)
    && (actions != [] ==> StockAlways(opening, sys, actions[..|actions| - 1]))
  }

  ghost predicate NeverMisplaces(sys: System, actions: seq<Action>) {
    actions != [] ==>
      && NeverMisplaces(sys, actions[..|actions| - 1])
      && !Misplaces(ActedAll(sys, actions[..|actions| - 1]), actions[|actions| - 1])
  }

  /**
   * However checkouts, transitions and payments interleave, the stock sums hold
   * all along exactly when no status write lands after its order's units have
   * left the bucket in which the status was read, and no restore reserves for an
   * order that holds its units already.
   */
  lemma {:induction false} StockAlwaysIff(opening: map<Variant, int>, sys: System, actions: seq<Action>)
    requires StockOk(opening, sys.world.shop)
    ensures StockAlways(opening, sys, actions) <==> NeverMisplaces(sys, actions)
  {
    if actions != [] {
      var front, last := actions[..|actions| - 1], actions[|actions| - 1];
      StockAlwaysIff(opening, sys, front);
      if StockAlways(opening, sys, front) { ActedStock(opening, ActedAll(sys, front), last); }
    }
  }
}
