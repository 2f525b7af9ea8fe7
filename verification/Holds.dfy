/**
 * What a reservation promises the customer: until the deadline they were shown,
 * their order is not cancelled under them, whatever the timer, Stripe and
 * everyone else do.
 */
module Holds {
  import opened Common
  import opened Inventory
  import opened Orders
  import opened OrderInvariants
  import opened Payments
  import opened Lifecycle
  import opened Convergence
  import opened Reservations
  import opened Interleavings
  import opened StaleReads

  /** Not cancelled, and while open, held until d at least. */
  predicate Held(s: Shop, id: nat, d: nat) {
    && id < |s.orders| && s.orders[id].status != Cancelled
    && (Open(s.orders[id].status) ==> s.orders[id].expiresAt.Some? && d <= s.orders[id].expiresAt.value)
  }

  /** The cart came back changed before a payment was started: checkout cancels the order and builds another. */
  predicate Rebuilds(s: Shop, cart: Option<Cart>, id: nat)
    requires id < |s.orders|
  {
    && cart.Some? && cart.value.lines != []
    && FindOpen(s.orders, cart.value.token) == Some(id) && Outdated(s.orders[id], cart.value.lines)
  }

  /** Nobody moves this order by hand, and its cart does not come back changed. */
  predicate LeftAlone(w: World, step: Step, id: nat)
    requires id < |w.shop.orders|
  {
    match step
    case AdminStep(j, _, _, _) => j != id
    case InitiateStep(cart, _, _, _) => !Rebuilds(w.shop, cart, id)
    case _ => true
  }

  /** A late write cancels the order: a rebuild decided before, or a cancellation. */
  predicate LateCancel(s: Shop, call: Call, id: nat) {
    (call.Rebuilding? && call.id == id) || (Valid(s, call) && call.id == id && call.to == Cancelled)
  }

  predicate LeftAloneBy(sys: System, action: Action, id: nat)
    requires id < |sys.world.shop.orders|
  {
    match action
    case Whole(step) => LeftAlone(sys.world, step, id)
    case Proceed(n, _) => n < |sys.calls| ==> !LateCancel(sys.world.shop, sys.calls[n], id)
    case _ => true
  }

  predicate LeftAloneRun(sys: System, actions: seq<Action>, id: nat) {
    actions != [] ==>
      && LeftAloneRun(sys, actions[..|actions| - 1], id)
      && id < |ActedAll(sys, actions[..|actions| - 1]).world.shop.orders|
      && LeftAloneBy(ActedAll(sys, actions[..|actions| - 1]), actions[|actions| - 1], id)
  }

  lemma ConfirmedHeld(opening: map<Variant, int>, s: Shop, j: nat, i: string, id: nat, d: nat)
    requires Good(opening, s) && Held(s, id, d)
    ensures Held(Confirmed(s, j, i).shop, id, d)
  {
    ConfirmedOutcome(opening, s, j, i);
    if j != id {
      ConfirmedFrame(opening, s, j, i, id);
    } else if Payable(s, id) {
      ConfirmedPays(opening, s, id, i);
    }
  }

  lemma PayingHeld(opening: map<Variant, int>, w: World, i: string, intent: Intent, crash: bool, id: nat, d: nat)
    requires GoodWorld(opening, w) && Held(w.shop, id, d)
    ensures Held(Paying(w, i, intent, crash).shop, id, d)
  {
    if intent.order.Some? && intent.order.value < |w.shop.orders| {
      ConfirmedHeld(opening, w.shop, intent.order.value, i, id, d);
    }
  }

  lemma ReconciledHeld(opening: map<Variant, int>, w: World, j: nat, up: bool, crash: bool, id: nat, d: nat)
    requires GoodWorld(opening, w) && Held(w.shop, id, d)
    ensures Held(Reconciled(w, j, up, crash).0.shop, id, d)
  {
    var i := SucceededIntent(w, j, up);
    if i.Some? { ConfirmedHeld(opening, w.shop, j, i.value, id, d); }
  }

  lemma {:induction false} SweptHeld(opening: map<Variant, int>, w: World, ids: seq<nat>, unread: set<nat>, id: nat, d: nat)
    requires GoodWorld(opening, w) && Held(w.shop, id, d)
    ensures Held(Swept(w, ids, unread).0.shop, id, d)
  {
    if ids != [] {
      var front := ids[..|ids| - 1];
      SweptHeld(opening, w, front, unread, id, d);
      SweptGood(opening, w, front, unread);
      ReconciledHeld(opening, Swept(w, front, unread).0, ids[|ids| - 1], ids[|ids| - 1] !in unread, false, id, d);
    }
  }

  /** A fresh window never ends before the one it replaces. */
  lemma ExtendedHeld(s: Shop, j: nat, lag: nat, id: nat, d: nat)
    requires Held(s, id, d) && Timed(s.orders[id], s.now)
    ensures Held(Extended(s, j, lag), id, d)
  {
  }

  lemma MintedHeld(w: World, j: nat, newId: string, testAllowed: bool, g: Gateway, lag: nat, id: nat, d: nat)
    requires Held(w.shop, id, d) && Timed(w.shop.orders[id], w.shop.now)
    ensures Held(Minted(w, j, newId, testAllowed, g, lag).0.shop, id, d)
  {
    if j < |w.shop.orders| { ExtendedHeld(WithIntent(w.shop, j, newId), j, lag, id, d); }
  }

  lemma TransitionedHeld(s: Shop, j: nat, to: Status, note: string, admin: Option<string>, id: nat, d: nat)
    requires Held(s, id, d) && (j != id || to == Refunded)
    ensures Held(Transitioned(s, j, to, note, admin).shop, id, d)
  {
    if j != id { TransitionedFrame(s, j, to, note, admin, id); }
  }

  lemma ExpiredHeld(opening: map<Variant, int>, w: World, key: JobKey, up: bool, again: bool, lag: nat, id: nat, d: nat)
    requires GoodWorld(opening, w) && Held(w.shop, id, d) && key.order != id
    ensures Held(Expired(w, key, up, again, lag).shop, id, d)
  {
    match IntentStateOf(w, key.order, up, again).1
    case MoneyHeld => ReconciledHeld(opening, w, key.order, again, false, id, d);
    case InFlight =>
    case NoMoney => TransitionedHeld(w.shop, key.order, Cancelled, "Reservation expired — payment timeout", None, id, d);
  }

  /** Before the deadline the order's own jobs step aside. */
  lemma FiredHeld(opening: map<Variant, int>, w: World, key: JobKey, up: bool, again: bool, lag: nat, id: nat, d: nat)
    requires GoodWorld(opening, w) && Held(w.shop, id, d) && w.shop.now < d
    ensures Held(Fired(w, key, up, again, lag).shop, id, d)
  {
    if key.order != id {
      var done := Dropped(w, key);
      RequeuedGood(opening, w.shop, done.shop);
      ExpiredHeld(opening, done, key, up, again, lag, id, d);
    }
  }

  lemma RefundedHeld(w: World, event: string, charge: string, j: nat, amount: int, crash: bool, id: nat, d: nat)
    requires Held(w.shop, id, d)
    ensures Held(ChargeRefunded(w, event, charge, j, amount, crash).shop, id, d)
  {
    TransitionedHeld(w.shop, j, Refunded, "Refunded via Stripe", None, id, d);
  }

  lemma InitiatedHeld(s: Shop, cart: Option<Cart>, p: Pricing, pricesOk: bool, lag: nat, id: nat, d: nat)
    requires Held(s, id, d) && !Rebuilds(s, cart, id)
    ensures Held(Initiated(s, cart, p, pricesOk, lag).shop, id, d)
  {
    if cart.Some? && cart.value.lines != [] {
      var c := cart.value;
      var found := FindOpen(s.orders, c.token);
      if found.None? {
        DraftPlacedFrame(s, c, p, pricesOk, lag, id);
      } else if Outdated(s.orders[found.value], c.lines) {
        TransitionedFrame(s, found.value, Cancelled, REBUILT_NOTE, None, id);
        DraftPlacedFrame(Transitioned(s, found.value, Cancelled, REBUILT_NOTE, None).shop, c, p, pricesOk, lag, id);
      }
    }
  }

  lemma AdminHeld(opening: map<Variant, int>, s: Shop, j: nat, to: Status, note: string, admin: string, id: nat, d: nat)
    requires Good(opening, s) && Held(s, id, d) && j != id
    ensures Held(if to == Paid then MarkedPaid(s, j, note).shop else Transitioned(s, j, to, note, Some(admin)).shop, id, d)
  {
    if to != Paid {
      TransitionedHeld(s, j, to, note, Some(admin), id, d);
    } else if j < |s.orders| {
      ConfirmedHeld(opening, s, j, ManualIntent(s.orders[j], note), id, d);
    }
  }

  lemma QuietHeld(w: World, step: Step, id: nat, d: nat)
    requires Held(w.shop, id, d)
    requires
      || step.CreateFromCartStep? || step.ShippingStep? || step.ReadyStep?
      || step.AdjustStep? || step.RestockStep? || step.StripeStep? || step.TickStep?
    ensures Held(Next(w, step).shop, id, d)
  {
  }

  lemma NextHeld(pending: set<nat>, opening: map<Variant, int>, w: World, step: Step, id: nat, d: nat)
    requires GoodWorld(opening, w) && Queueing(pending, w) && Held(w.shop, id, d) && LeftAlone(w, step, id)
    requires w.shop.now < d
    ensures Held(Next(w, step).shop, id, d)
  {
    assert Timed(w.shop.orders[id], w.shop.now);
    match step
    case InitiateStep(cart, p, pricesOk, lag) => InitiatedHeld(w.shop, cart, p, pricesOk, lag, id, d);
    case MintStep(j, newId, testAllowed, g, lag) => MintedHeld(w, j, newId, testAllowed, g, lag, id, d);
    case AdminStep(j, to, note, admin) => AdminHeld(opening, w.shop, j, to, note, admin, id, d);
    case ReturnClosedStep(j) => TransitionedHeld(w.shop, j, Refunded, "Fully refunded via returns", None, id, d);
    case WebhookStep(i, crash) => if i in w.stripe { PayingHeld(opening, w, i, w.stripe[i], crash, id, d); }
    case ReconcileStep(j, up, crash) => ReconciledHeld(opening, w, j, up, crash, id, d);
    case SweepStep(ids, unread) => SweptHeld(opening, w, ids, unread, id, d);
    case TimerStep(key, up, again, lag) => FiredHeld(opening, w, key, up, again, lag, id, d);
    case FailedStep(_, i, lag) =>
      if i in w.stripe && w.stripe[i].order.Some? { ExtendedHeld(w.shop, w.stripe[i].order.value, lag, id, d); }
    case RefundStep(event, charge, j, amount, crash) => RefundedHeld(w, event, charge, j, amount, crash, id, d);
    case _ => QuietHeld(w, step, id, d);
  }

  /** What else is written late leaves the reservation alone. */
  lemma CarriedHeld(opening: map<Variant, int>, w: World, call: Call, lag: nat, id: nat, d: nat)
    requires GoodWorld(opening, w) && Held(w.shop, id, d) && Harmless(w.shop, call) && !LateCancel(w.shop, call, id)
    ensures Held(Carried(w, call, lag).0.shop, id, d)
  {
    assert OrderOk(w.shop.orders[id]);
    if (call.Rebuilding? || call.Restoring? || call.Linking? || call.Writing?) && call.id != id { OtherCallFrame(w, call, lag, id); }
  }

  // ── The clock ──────────────────────────────────────────────────────────

  lemma ReconciledClock(w: World, j: nat, up: bool, crash: bool)
    ensures Reconciled(w, j, up, crash).0.shop.now == w.shop.now
  {
    var i := SucceededIntent(w, j, up);
    if i.Some? { ConfirmedJobs(w.shop, j, i.value); }
  }

  lemma {:induction false} SweptClock(w: World, ids: seq<nat>, unread: set<nat>)
    ensures Swept(w, ids, unread).0.shop.now == w.shop.now
  {
    if ids != [] {
      SweptClock(w, ids[..|ids| - 1], unread);
      ReconciledClock(Swept(w, ids[..|ids| - 1], unread).0, ids[|ids| - 1], ids[|ids| - 1] !in unread, false);
    }
  }

  lemma FiredClock(w: World, key: JobKey, up: bool, again: bool, lag: nat)
    ensures Fired(w, key, up, again, lag).shop.now == w.shop.now
  {
    var done := w.(shop := w.shop.(jobs := w.shop.jobs - {key}));
    ReconciledClock(done, key.order, again, false);
    TransitionedJobs(w.shop, key.order, Cancelled, "Reservation expired — payment timeout");
  }

  lemma AdminClock(s: Shop, j: nat, note: string)
    ensures MarkedPaid(s, j, note).shop.now == s.now
  {
    if j < |s.orders| {
      ConfirmedJobs(s, j, ManualIntent(s.orders[j], note));
    }
  }

  lemma CheckoutClock(w: World, step: Step)
    requires step.InitiateStep? || step.CreateFromCartStep? || step.ShippingStep? || step.ReadyStep?
    ensures Next(w, step).shop.now == w.shop.now
  {
  }

  lemma OtherClock(w: World, step: Step)
    requires
      || step.MintStep? || step.ReturnClosedStep? || step.FailedStep? || step.RefundStep?
      || step.AdjustStep? || step.RestockStep? || step.StripeStep? || step.TickStep?
    ensures w.shop.now <= Next(w, step).shop.now
  {
  }

  lemma ClockAdvances(w: World, step: Step)
    ensures w.shop.now <= Next(w, step).shop.now
  {
    match step
    case WebhookStep(i, _) =>
      if i in w.stripe && w.stripe[i].order.Some? { ConfirmedJobs(w.shop, w.stripe[i].order.value, i); }
    case AdminStep(j, _, note, _) => AdminClock(w.shop, j, note);
    case ReconcileStep(j, up, crash) => ReconciledClock(w, j, up, crash);
    case SweepStep(ids, unread) => SweptClock(w, ids, unread);
    case TimerStep(key, up, again, lag) => FiredClock(w, key, up, again, lag);
    case InitiateStep(_, _, _, _) => CheckoutClock(w, step);
    case CreateFromCartStep(_, _, _) => CheckoutClock(w, step);
    case ShippingStep(_, _) => CheckoutClock(w, step);
    case ReadyStep(_, _, _, _) => CheckoutClock(w, step);
    case _ => OtherClock(w, step);
  }

  lemma ActedClock(sys: System, action: Action)
    ensures sys.world.shop.now <= Acted(sys, action).world.shop.now
  {
    if action.Whole? { ClockAdvances(sys.world, action.step); }
  }

  lemma ActedHeld(opening: map<Variant, int>, sys: System, action: Action, id: nat, d: nat)
    requires SoundSystem(opening, sys) && HarmlessAction(sys, action) && Held(sys.world.shop, id, d) && LeftAloneBy(sys, action, id)
    requires sys.world.shop.now < d
    ensures Held(Acted(sys, action).world.shop, id, d)
  {
    match action
    case Whole(step) => NextHeld(UnfinishedOrders(sys.calls), opening, sys.world, step, id, d);
    case Proceed(n, lag) => if n < |sys.calls| { CarriedHeld(opening, sys.world, sys.calls[n], lag, id, d); }
    case _ =>
  }

  /**
   * From any state such runs reach, and whatever else is in flight, an open
   * order with a deadline that nobody moves by hand, whose cart does not come
   * back changed, and that no late write cancels, is not cancelled before that
   * deadline, and its deadline never moves closer while it stays open.
   */
  lemma {:induction false} ReservationHolds(opening: map<Variant, int>, sys: System, actions: seq<Action>, id: nat)
    requires SoundSystem(opening, sys) && id < |sys.world.shop.orders| && HasDeadline(sys.world.shop.orders[id])
    requires HarmlessRun(sys, actions) && LeftAloneRun(sys, actions, id)
    requires ActedAll(sys, actions).world.shop.now < sys.world.shop.orders[id].expiresAt.value
    ensures Held(ActedAll(sys, actions).world.shop, id, sys.world.shop.orders[id].expiresAt.value)
  {
    if actions != [] {
      var front, last := actions[..|actions| - 1], actions[|actions| - 1];
      var before := ActedAll(sys, front);
      ActedClock(before, last);
      ReservationHolds(opening, sys, front, id);
      ActedAllSound(opening, sys, front);
      ActedHeld(opening, before, last, id, sys.world.shop.orders[id].expiresAt.value);
    }
  }

  /**
   * The orders whose deadline no job enforces are on the way to being paid:
   * Stripe holds their money, and the next completed settlement ends them.
   */
  lemma UnenforcedIsOnTrack(w: World, id: nat)
    requires Queueing({}, w) && id < |w.shop.orders| && Open(w.shop.orders[id].status) && !JobWaits(w.shop, id)
    ensures w.shop.orders[id].paymentIntent.Some? && OnTrack(w, id, w.shop.orders[id].paymentIntent.value)
  {
    assert Covered(w, id) && OwnIntent(w, id);
  }
}
