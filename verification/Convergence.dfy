/**
 * Money that arrived at Stripe becomes a paid order: whatever the order and
 * repetition of webhooks, reconciliations, sweeps and timers, and wherever a
 * process dies between the ledger row and the settlement.
 */
module Convergence {
  import opened Common
  import opened Inventory
  import opened Orders
  import opened OrderInvariants
  import opened Payments
  import opened Lifecycle
  import opened Reservations
  import opened Interleavings
  import opened StaleReads

  /** Another succeeded intent of the same order, whose row the ledger has. */
  predicate Rival(w: World, id: nat, i: string, j: string) {
    j != i && j in w.stripe && w.stripe[j].status == Succeeded && w.stripe[j].order == Some(id) && ForIntent(j) in w.ledger
  }

  /** The ledger says what the order was paid with. */
  ghost predicate Traced(w: World, id: nat, i: string) {
    ForIntent(i) in w.ledger || exists j :: Rival(w, id, i, j)
  }

  /** Stripe holds the order's money; the order is still open, or paid with a ledger row in place. */
  ghost predicate OnTrack(w: World, id: nat, i: string) {
    && id < |w.shop.orders| && i in w.stripe
    && w.stripe[i].status == Succeeded && w.stripe[i].order == Some(id)
    && (|| (Open(w.shop.orders[id].status) && w.shop.orders[id].paymentIntent == Some(i))
        || (w.shop.orders[id].status == Paid && Traced(w, id, i)))
  }

  /** Ledger rows and succeeded intents are never lost. */
  ghost predicate Remembers(w: World, w': World) {
    && w.ledger.Keys <= w'.ledger.Keys
    && forall j :: j in w.stripe && w.stripe[j].status == Succeeded ==>
                     j in w'.stripe && w'.stripe[j].status == Succeeded && w'.stripe[j].order == w.stripe[j].order
  }

  lemma TraceKept(w: World, w': World, id: nat, i: string)
    requires Remembers(w, w') && Traced(w, id, i)
    ensures Traced(w', id, i)
  {
    if ForIntent(i) !in w.ledger {
      var j :| Rival(w, id, i, j);
      assert Rival(w', id, i, j);
    }
  }

  /** The order itself is untouched and nothing is forgotten. */
  lemma UntouchedProgress(w: World, w': World, id: nat, i: string)
    requires OnTrack(w, id, i) && Remembers(w, w') && id < |w'.shop.orders|
    requires w'.shop.orders[id].status == w.shop.orders[id].status || (Open(w.shop.orders[id].status) && Open(w'.shop.orders[id].status))
    requires w'.shop.orders[id].paymentIntent == w.shop.orders[id].paymentIntent || IsPaid(w, id)
    ensures Progress(w, w', id, i, false)
  {
    if IsPaid(w, id) { TraceKept(w, w', id, i); }
  }

  ghost predicate IsPaid(w: World, id: nat)
    requires id < |w.shop.orders|
  {
    w.shop.orders[id].status == Paid
  }

  /** Nobody moves this order by hand or refunds it. */
  predicate HandsOff(step: Step, id: nat) {
    match step
    case AdminStep(j, _, _, _) => j != id
    case ReturnClosedStep(j) => j != id
    case RefundStep(_, _, j, _, _) => j != id
    case _ => true
  }

  /** A webhook, reconciliation, sweep or timer that ran to its end with Stripe answering. */
  predicate Settles(w: World, step: Step, id: nat, i: string)
    requires id < |w.shop.orders|
  {
    match step
    case WebhookStep(j, crash) => j == i && !crash
    case ReconcileStep(j, up, crash) => j == id && up && !crash
    case SweepStep(ids, unread) => id in ids && id !in unread
    case TimerStep(key, up, again, _) => key.order == id && Due(w, key) && PastDeadline(w, id) && up && again
    case _ => false
  }

  /** What one step does for an order on track: it stays on track, paid stays paid, and a full settlement pays. */
  ghost predicate Progress(w: World, w': World, id: nat, i: string, settles: bool) {
    && OnTrack(w, id, i) && OnTrack(w', id, i)
    && (IsPaid(w, id) ==> w'.shop.orders[id].status == Paid)
    && (settles ==> IsPaid(w', id))
  }

  /** A confirmation touches no order but its own. */
  lemma ConfirmedFrame(opening: map<Variant, int>, s: Shop, j: nat, i: string, k: nat)
    requires Good(opening, s) && k < |s.orders| && k != j
    ensures |Confirmed(s, j, i).shop.orders| == |s.orders|
    ensures Confirmed(s, j, i).shop.orders[k] == s.orders[k]
  {
    ConfirmedOutcome(opening, s, j, i);
    if Payable(s, j) { ConfirmedPays(opening, s, j, i); }
  }

  /** Settling an order on track under an intent whose row is there pays it, if it was not paid already. */
  lemma SettledProgress(opening: map<Variant, int>, w: World, id: nat, i: string, other: string)
    requires GoodWorld(opening, w) && OnTrack(w, id, i) && ForIntent(other) in w.ledger
    requires other in w.stripe && w.stripe[other].status == Succeeded && w.stripe[other].order == Some(id)
    ensures Progress(w, SettledBy(w, id, other).0, id, i, true)
  {
    var w' := SettledBy(w, id, other).0;
    if IsPaid(w, id) {
      TraceKept(w, w', id, i);
    } else {
      ConfirmedPays(opening, w.shop, id, other);
      if other != i { assert Rival(w', id, i, other); }
    }
  }

  lemma OtherSettledProgress(opening: map<Variant, int>, w: World, id: nat, i: string, j: nat, other: string)
    requires GoodWorld(opening, w) && OnTrack(w, id, i) && j != id
    ensures Progress(w, SettledBy(w, j, other).0, id, i, false)
  {
    ConfirmedFrame(opening, w.shop, j, other, id);
    UntouchedProgress(w, SettledBy(w, j, other).0, id, i);
  }

  lemma RecordedProgress(w: World, id: nat, i: string, key: LedgerKey, row: LedgerRow)
    requires OnTrack(w, id, i)
    ensures Progress(w, Recorded(w, key, row).0, id, i, false)
  {
    UntouchedProgress(w, Recorded(w, key, row).0, id, i);
  }

  lemma PayingProgress(opening: map<Variant, int>, w: World, id: nat, i: string, other: string, crash: bool)
    requires GoodWorld(opening, w) && OnTrack(w, id, i)
    requires other in w.stripe && w.stripe[other].status == Succeeded
    ensures Progress(w, Paying(w, other, w.stripe[other], crash), id, i, other == i && !crash)
  {
    var intent := w.stripe[other];
    if intent.order.Some? && intent.order.value < |w.shop.orders| {
      var j, row := intent.order.value, ChargeRow(intent.order.value, other, intent.amount);
      var w' := Recorded(w, ForIntent(other), row).0;
      RecordedGood(opening, w, ForIntent(other), row);
      RecordedProgress(w, id, i, ForIntent(other), row);
      if j == id {
        SettledProgress(opening, w', id, i, other);
      } else {
        OtherSettledProgress(opening, w', id, i, j, other);
      }
    }
  }

  lemma ReconciledProgress(opening: map<Variant, int>, w: World, id: nat, i: string, j: nat, up: bool, crash: bool)
    requires GoodWorld(opening, w) && OnTrack(w, id, i)
    ensures Progress(w, Reconciled(w, j, up, crash).0, id, i, j == id && up && !crash)
  {
    var found := SucceededIntent(w, j, up);
    if found.Some? {
      var row := ChargeRow(j, found.value, w.stripe[found.value].amount);
      var w' := Recorded(w, ForIntent(found.value), row).0;
      RecordedGood(opening, w, ForIntent(found.value), row);
      RecordedProgress(w, id, i, ForIntent(found.value), row);
      if j == id {
        SettledProgress(opening, w', id, i, i);
      } else {
        OtherSettledProgress(opening, w', id, i, j, found.value);
      }
    }
  }

  lemma {:induction false} SweptProgress(opening: map<Variant, int>, w: World, id: nat, i: string, ids: seq<nat>, unread: set<nat>)
    requires GoodWorld(opening, w) && OnTrack(w, id, i)
    ensures Progress(w, Swept(w, ids, unread).0, id, i, id in ids && id !in unread)
  {
    if ids != [] {
      var front, last := ids[..|ids| - 1], ids[|ids| - 1];
      assert id in ids ==> id in front || id == last;
      SweptProgress(opening, w, id, i, front, unread);
      SweptGood(opening, w, front, unread);
      ReconciledProgress(opening, Swept(w, front, unread).0, id, i, last, last !in unread, false);
    }
  }

  /** A transition of one order leaves the others as they are. */
  lemma TransitionedFrame(s: Shop, j: nat, to: Status, note: string, admin: Option<string>, k: nat)
    requires k < |s.orders| && k != j
    ensures var s' := Transitioned(s, j, to, note, admin).shop; |s'.orders| == |s.orders| && s'.orders[k] == s.orders[k]
  {
  }

  /** At its deadline an order on track is settled or left as it is, and any other order's end is its own. */
  lemma ExpiredProgress(opening: map<Variant, int>, w: World, id: nat, i: string, key: JobKey, up: bool, again: bool, lag: nat)
    requires GoodWorld(opening, w) && OnTrack(w, id, i) && key.order < |w.shop.orders|
    requires key.order == id ==> !IsPaid(w, id)
    ensures Progress(w, Expired(w, key, up, again, lag), id, i, key.order == id && up && again)
  {
    match IntentStateOf(w, key.order, up, again).1
    case MoneyHeld => ReconciledProgress(opening, w, id, i, key.order, again, false);
    case InFlight => UntouchedProgress(w, Expired(w, key, up, again, lag), id, i);
    case NoMoney =>
      TransitionedFrame(w.shop, key.order, Cancelled, "Reservation expired — payment timeout", None, id);
      UntouchedProgress(w, Expired(w, key, up, again, lag), id, i);
  }

  /** The timer never cancels an order whose money Stripe holds, reachable or not. */
  lemma FiredProgress(opening: map<Variant, int>, w: World, id: nat, i: string, key: JobKey, up: bool, again: bool, lag: nat)
    requires GoodWorld(opening, w) && OnTrack(w, id, i)
    ensures Progress(w, Fired(w, key, up, again, lag), id, i, key.order == id && PastDeadline(w, id) && up && again)
  {
    var done := w.(shop := w.shop.(jobs := w.shop.jobs - {key}));
    RequeuedGood(opening, w.shop, done.shop);
    UntouchedProgress(w, done, id, i);
    if key.order < |w.shop.orders| && Open(w.shop.orders[key.order].status) {
      ExpiredProgress(opening, done, id, i, key, up, again, lag);
    }
  }

  lemma DraftPlacedFrame(s: Shop, c: Cart, p: Pricing, pricesOk: bool, lag: nat, k: nat)
    requires k < |s.orders|
    ensures var s' := DraftPlaced(s, c, p, pricesOk, lag).shop; k < |s'.orders| && s'.orders[k] == s.orders[k]
  {
  }

  /** Checkout rebuilds only orders that no payment was started for. */
  lemma InitiatedProgress(w: World, id: nat, i: string, cart: Option<Cart>, p: Pricing, pricesOk: bool, lag: nat)
    requires OnTrack(w, id, i)
    ensures Progress(w, OnShop(w, Initiated(w.shop, cart, p, pricesOk, lag)), id, i, false)
  {
    if cart.Some? && cart.value.lines != [] {
      var c := cart.value;
      var found := FindOpen(w.shop.orders, c.token);
      if found.None? {
        DraftPlacedFrame(w.shop, c, p, pricesOk, lag, id);
      } else if Outdated(w.shop.orders[found.value], c.lines) {
        TransitionedFrame(w.shop, found.value, Cancelled, REBUILT_NOTE, None, id);
        DraftPlacedFrame(Transitioned(w.shop, found.value, Cancelled, REBUILT_NOTE, None).shop, c, p, pricesOk, lag, id);
      }
    }
    UntouchedProgress(w, OnShop(w, Initiated(w.shop, cart, p, pricesOk, lag)), id, i);
  }

  lemma CheckoutProgress(w: World, id: nat, i: string, step: Step)
    requires OnTrack(w, id, i)
    requires step.CreateFromCartStep? || step.ShippingStep? || step.ReadyStep?
    ensures Progress(w, Next(w, step), id, i, false)
  {
    UntouchedProgress(w, Next(w, step), id, i);
  }

  lemma MintRemembers(w: World, j: nat, newId: string, testAllowed: bool, g: Gateway, lag: nat)
    requires newId !in w.stripe
    ensures Remembers(w, Minted(w, j, newId, testAllowed, g, lag).0)
  {
  }

  lemma MintedStatus(w: World, j: nat, newId: string, testAllowed: bool, g: Gateway, lag: nat, id: nat)
    requires id < |w.shop.orders|
    ensures var s' := Minted(w, j, newId, testAllowed, g, lag).0.shop; id < |s'.orders| && s'.orders[id].status == w.shop.orders[id].status
  {
  }

  lemma MintProgress(w: World, id: nat, i: string, j: nat, newId: string, testAllowed: bool, g: Gateway, lag: nat)
    requires OnTrack(w, id, i) && newId !in w.stripe
    ensures Progress(w, Minted(w, j, newId, testAllowed, g, lag).0, id, i, false)
  {
    MintRemembers(w, j, newId, testAllowed, g, lag);
    MintedStatus(w, j, newId, testAllowed, g, lag, id);
    if !IsPaid(w, id) { MintLeavesMoneyAlone(w, j, newId, testAllowed, g, lag, id, i); }
    UntouchedProgress(w, Minted(w, j, newId, testAllowed, g, lag).0, id, i);
  }

  lemma FailedProgress(w: World, id: nat, i: string, event: string, other: string, lag: nat)
    requires OnTrack(w, id, i) && other in w.stripe
    ensures Progress(w, PaymentFailed(w, event, other, w.stripe[other], lag), id, i, false)
  {
    UntouchedProgress(w, PaymentFailed(w, event, other, w.stripe[other], lag), id, i);
  }

  lemma WarehouseProgress(w: World, id: nat, i: string, step: Step)
    requires OnTrack(w, id, i)
    requires step.AdjustStep? || step.RestockStep? || step.TickStep?
    ensures Progress(w, Next(w, step), id, i, false)
  {
    UntouchedProgress(w, Next(w, step), id, i);
  }

  lemma StripeProgress(w: World, id: nat, i: string, other: string, status: IntentStatus)
    requires OnTrack(w, id, i)
    ensures Progress(w, Next(w, StripeStep(other, status)), id, i, false)
  {
    UntouchedProgress(w, Next(w, StripeStep(other, status)), id, i);
  }

  lemma ReversalProgress(w: World, id: nat, i: string, step: Step)
    requires OnTrack(w, id, i) && HandsOff(step, id)
    requires step.ReturnClosedStep? || step.RefundStep?
    ensures Progress(w, Next(w, step), id, i, false)
  {
    UntouchedProgress(w, Next(w, step), id, i);
  }

  lemma AdminProgress(opening: map<Variant, int>, w: World, id: nat, i: string, j: nat, to: Status, note: string, admin: string)
    requires GoodWorld(opening, w) && OnTrack(w, id, i) && j != id
    ensures Progress(w, Next(w, AdminStep(j, to, note, admin)), id, i, false)
  {
    if to == Paid && j < |w.shop.orders| {
      ConfirmedFrame(opening, w.shop, j, ManualIntent(w.shop.orders[j], note), id);
    } else {
      TransitionedFrame(w.shop, j, to, note, Some(admin), id);
    }
    UntouchedProgress(w, Next(w, AdminStep(j, to, note, admin)), id, i);
  }

  lemma NextProgress(opening: map<Variant, int>, w: World, id: nat, i: string, step: Step)
    requires GoodWorld(opening, w) && OnTrack(w, id, i) && HandsOff(step, id)
    ensures Progress(w, Next(w, step), id, i, Settles(w, step, id, i))
  {
    match step
    case InitiateStep(cart, p, pricesOk, lag) => InitiatedProgress(w, id, i, cart, p, pricesOk, lag);
    case CreateFromCartStep(_, _, _) => CheckoutProgress(w, id, i, step);
    case ShippingStep(_, _) => CheckoutProgress(w, id, i, step);
    case ReadyStep(_, _, _, _) => CheckoutProgress(w, id, i, step);
    case MintStep(j, newId, testAllowed, g, lag) =>
      if newId !in w.stripe { MintProgress(w, id, i, j, newId, testAllowed, g, lag); }
    case FailedStep(event, other, lag) => if other in w.stripe { FailedProgress(w, id, i, event, other, lag); }
    case StripeStep(other, status) => StripeProgress(w, id, i, other, status);
    case WebhookStep(other, crash) =>
      if other in w.stripe && w.stripe[other].status == Succeeded { PayingProgress(opening, w, id, i, other, crash); }
    case ReconcileStep(j, up, crash) => ReconciledProgress(opening, w, id, i, j, up, crash);
    case SweepStep(ids, unread) => SweptProgress(opening, w, id, i, ids, unread);
    case TimerStep(key, up, again, lag) => if Due(w, key) { FiredProgress(opening, w, id, i, key, up, again, lag); }
    case AdminStep(j, to, note, admin) => AdminProgress(opening, w, id, i, j, to, note, admin);
    case ReturnClosedStep(_) => ReversalProgress(w, id, i, step);
    case RefundStep(_, _, _, _, _) => ReversalProgress(w, id, i, step);
    case AdjustStep(_, _) => WarehouseProgress(w, id, i, step);
    case RestockStep(_, _, _) => WarehouseProgress(w, id, i, step);
    case TickStep(_) => WarehouseProgress(w, id, i, step);
  }

  // ── In flight ──────────────────────────────────────────────────────────

  /** The confirmation's last write, on the status it read. */
  predicate PaysNow(s: Shop, call: Call, id: nat) {
    Valid(s, call) && call.id == id && call.to == Paid && call.prev == s.orders[id].status
  }

  /**
   * A late write that could take the order off the way to being paid: a rebuild
   * or restore of it, another intent linked while it is open, or any status
   * write but a confirmation's own steps.
   */
  ghost predicate Disturbs(w: World, call: Call, id: nat, i: string)
    requires id < |w.shop.orders|
  {
    match call
    case Rebuilding(_, _, _, j) => j == id
    case Restoring(j, _) => j == id
    case Linking(j, k, _) => j == id && k != i && Open(w.shop.orders[id].status)
    case Writing(j, prev, to, _, _, _) =>
      Valid(w.shop, call) && j == id &&
      !(prev == w.shop.orders[id].status && (to == AwaitingPayment || (to == Paid && Traced(w, id, i))))
    case _ => false
  }

  lemma OtherCallFrame(w: World, call: Call, lag: nat, id: nat)
    requires id < |w.shop.orders| && (call.Rebuilding? || call.Restoring? || call.Linking? || call.Writing?) && call.id != id
    ensures var w' := Carried(w, call, lag).0;
            id < |w'.shop.orders| && w'.shop.orders[id] == w.shop.orders[id] && w'.stripe == w.stripe && w'.ledger == w.ledger
  {
  }

  lemma CarriedProgress(w: World, call: Call, lag: nat, id: nat, i: string)
    requires OnTrack(w, id, i) && !Disturbs(w, call, id, i)
    ensures Progress(w, Carried(w, call, lag).0, id, i, PaysNow(w.shop, call, id))
  {
    var w' := Carried(w, call, lag).0;
    if (call.Rebuilding? || call.Restoring? || call.Linking? || call.Writing?) && call.id != id {
      OtherCallFrame(w, call, lag, id);
      UntouchedProgress(w, w', id, i);
    } else if PaysNow(w.shop, call, id) {
      TraceKept(w, w', id, i);
    } else {
      UntouchedProgress(w, w', id, i);
    }
  }

  ghost predicate UndisturbedBy(sys: System, action: Action, id: nat, i: string)
    requires id < |sys.world.shop.orders|
  {
    match action
    case Whole(step) => HandsOff(step, id)
    case Proceed(n, _) => n < |sys.calls| ==> !Disturbs(sys.world, sys.calls[n], id, i)
    case _ => true
  }

  ghost predicate Undisturbed(sys: System, actions: seq<Action>, id: nat, i: string) {
    actions != [] ==>
      && Undisturbed(sys, actions[..|actions| - 1], id, i)
      && var before := ActedAll(sys, actions[..|actions| - 1]);
         id < |before.world.shop.orders| && UndisturbedBy(before, actions[|actions| - 1], id, i)
  }

  /** A settlement completed: a whole step that settles, or the last write of a confirmation in flight. */
  predicate SettlesIn(sys: System, action: Action, id: nat, i: string) {
    && id < |sys.world.shop.orders|
    && match action
       case Whole(step) => Settles(sys.world, step, id, i)
       case Proceed(n, _) => n < |sys.calls| && PaysNow(sys.world.shop, sys.calls[n], id)
       case _ => false
  }

  lemma ActedProgress(opening: map<Variant, int>, sys: System, action: Action, id: nat, i: string)
    requires GoodWorld(opening, sys.world) && OnTrack(sys.world, id, i) && UndisturbedBy(sys, action, id, i)
    ensures Progress(sys.world, Acted(sys, action).world, id, i, SettlesIn(sys, action, id, i))
  {
    match action
    case Whole(step) => NextProgress(opening, sys.world, id, i, step);
    case Proceed(n, lag) =>
      if n < |sys.calls| { CarriedProgress(sys.world, sys.calls[n], lag, id, i); } else { UntouchedProgress(sys.world, sys.world, id, i); }
    case _ => UntouchedProgress(sys.world, sys.world, id, i);
  }

  predicate SomeSettles(sys: System, actions: seq<Action>, id: nat, i: string) {
    actions != [] &&
      var front := actions[..|actions| - 1];
      SomeSettles(sys, front, id, i) || SettlesIn(ActedAll(sys, front), actions[|actions| - 1], id, i)
  }

  lemma {:induction false} SettledOnce(sys: System, actions: seq<Action>, n: nat, id: nat, i: string)
    requires n < |actions| && SettlesIn(ActedAll(sys, actions[..n]), actions[n], id, i)
    ensures SomeSettles(sys, actions, id, i)
  {
    if n < |actions| - 1 {
      assert actions[..|actions| - 1][..n] == actions[..n];
      SettledOnce(sys, actions[..|actions| - 1], n, id, i);
    }
  }

  lemma ProgressThen(w: World, w1: World, w2: World, id: nat, i: string, first: bool, second: bool)
    requires Progress(w, w1, id, i, first) && Progress(w1, w2, id, i, second)
    ensures Progress(w, w2, id, i, first || second)
  {
  }

  lemma {:induction false} RunProgress(opening: map<Variant, int>, sys: System, id: nat, i: string, actions: seq<Action>)
    requires GoodWorld(opening, sys.world) && OnTrack(sys.world, id, i)
    requires HarmlessRun(sys, actions) && Undisturbed(sys, actions, id, i)
    ensures Progress(sys.world, ActedAll(sys, actions).world, id, i, SomeSettles(sys, actions, id, i))
  {
    if actions == [] {
      UntouchedProgress(sys.world, sys.world, id, i);
    } else {
      var front, last := actions[..|actions| - 1], actions[|actions| - 1];
      var before := ActedAll(sys, front);
      RunProgress(opening, sys, id, i, front);
      GoodAlwaysIff(opening, sys, front);
      ActedProgress(opening, before, last, id, i);
      ProgressThen(sys.world, before.world, Acted(before, last).world, id, i,
                   SomeSettles(sys, front, id, i), SettlesIn(before, last, id, i));
    }
  }

  /** The ledger's record that an intent was paid. */
  predicate IsChargeOf(row: LedgerRow, i: string) {
    row.kind == Charge && row.succeeded && row.transaction == i
  }

  /**
   * The convergence theorem. An open order whose intent has succeeded ends any
   * run containing one completed settlement paid, with one payment in its
   * history, counted once, its units in the committed bucket, never more than
   * one succeeded-charge row for the intent, and exactly one unless another
   * succeeded intent of its own paid it first, whose row is there instead. Any
   * calls may be in flight, provided what they write late is harmless and does
   * not disturb this order.
   */
  lemma MoneyBecomesAPaidOrder(opening: map<Variant, int>, sys: System, id: nat, i: string, actions: seq<Action>, n: nat)
    requires GoodWorld(opening, sys.world) && OnTrack(sys.world, id, i)
    requires HarmlessRun(sys, actions) && Undisturbed(sys, actions, id, i)
    requires n < |actions| && SettlesIn(ActedAll(sys, actions[..n]), actions[n], id, i)
    ensures var w' := ActedAll(sys, actions).world;
            && GoodWorld(opening, w')
            && id < |w'.shop.orders| && w'.shop.orders[id].status == Paid
            && PaidRows(w'.shop.orders[id].history) == 1 == w'.shop.completions[id]
            && (forall v :: HeldBy(InCommitted, v)(w'.shop.orders[id]) == Demand(w'.shop.orders[id].lines, v))
            && (ForIntent(i) in w'.ledger || exists j :: Rival(w', id, i, j))
            && (forall key :: key in w'.ledger ==> (IsChargeOf(w'.ledger[key], i) <==> key == ForIntent(i)))
  {
    GoodAlwaysIff(opening, sys, actions);
    RunProgress(opening, sys, id, i, actions);
    SettledOnce(sys, actions, n, id, i);
    var w' := ActedAll(sys, actions).world;
    assert OrderOk(w'.shop.orders[id]) && CompletionOk(w'.shop, id);
    forall key | key in w'.ledger ensures IsChargeOf(w'.ledger[key], i) <==> key == ForIntent(i) {
      assert RowKeyed(w'.ledger, key);
    }
  }

  // ── Refunds do not converge ────────────────────────────────────────────

  /**
   * A refund webhook writes its ledger row before it moves the order, and a
   * redelivery stops at the row: an order is refunded by a delivery exactly
   * when the event is new, the process survives, and the status allows it.
   */
  lemma RefundTakesEffectIff(w: World, event: string, charge: string, id: nat, amount: int, crash: bool)
    requires id < |w.shop.orders| && w.shop.orders[id].status != Refunded
    ensures var w' := ChargeRefunded(w, event, charge, id, amount, crash);
            && |w'.shop.orders| == |w.shop.orders|
            && (w'.shop.orders[id].status == Refunded <==>
                ForEvent(event) !in w.ledger && !crash && w.shop.orders[id].status in {Paid, Processing, Shipped, Delivered})
            && (w'.shop.orders[id].status != Refunded ==> w'.shop == w.shop)
            && ForEvent(event) in w'.ledger
  {
  }

  /** An event the ledger knows does nothing. */
  lemma KnownRefundIsIgnored(w: World, event: string, charge: string, id: nat, amount: int, crash: bool)
    requires ForEvent(event) in w.ledger
    ensures Next(w, RefundStep(event, charge, id, amount, crash)) == w
  {
  }

  function Redeliveries(event: string, charge: string, id: nat, amount: int, n: nat): (steps: seq<Step>)
    ensures |steps| == n && forall k :: 0 <= k < n ==> steps[k] == RefundStep(event, charge, id, amount, false)
  {
    if n == 0 then [] else Redeliveries(event, charge, id, amount, n - 1) + [RefundStep(event, charge, id, amount, false)]
  }

  lemma {:induction false} NothingHappens(w: World, steps: seq<Step>)
    requires forall k :: 0 <= k < |steps| ==> Next(w, steps[k]) == w
    ensures Run(w, steps) == w
  {
    if steps != [] { NothingHappens(w, steps[..|steps| - 1]); }
  }

  lemma RedeliveriesIgnored(w: World, event: string, charge: string, id: nat, amount: int, n: nat)
    requires ForEvent(event) in w.ledger
    ensures Run(w, Redeliveries(event, charge, id, amount, n)) == w
  {
    KnownRefundIsIgnored(w, event, charge, id, amount, false);
    NothingHappens(w, Redeliveries(event, charge, id, amount, n));
  }

  lemma CrashedDelivery(w: World, event: string, charge: string, id: nat, amount: int)
    requires id < |w.shop.orders|
    ensures var w' := Next(w, RefundStep(event, charge, id, amount, true)); w'.shop == w.shop && ForEvent(event) in w'.ledger
  {
  }

  /** So a refund whose first delivery dies between the two writes is lost, however often it is delivered again. */
  lemma InterruptedRefundIsLost(w: World, event: string, charge: string, id: nat, amount: int, n: nat)
    requires id < |w.shop.orders| && w.shop.orders[id].status in {Paid, Processing, Shipped, Delivered}
    ensures var w' := Run(w, [RefundStep(event, charge, id, amount, true)] + Redeliveries(event, charge, id, amount, n));
            w'.shop == w.shop && ForEvent(event) in w'.ledger
  {
    var first := RefundStep(event, charge, id, amount, true);
    RunFirst(w, first, Redeliveries(event, charge, id, amount, n));
    CrashedDelivery(w, event, charge, id, amount);
    RedeliveriesIgnored(Next(w, first), event, charge, id, amount, n);
  }
}
