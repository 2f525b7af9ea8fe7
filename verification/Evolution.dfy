/**
 * What a whole step can do to an order that exists: never give it another
 * cart's lines, never reopen it, never unbury it, and never pay it twice.
 */
module Evolution {
  import opened Common
  import opened Inventory
  import opened Orders
  import opened OrderInvariants
  import opened Payments
  import opened Lifecycle

  /** Paid at most once, and once paid in no status a payment would move. */
  predicate PaidForGood(o: Order) {
    && PaidRows(o.history) <= 1
    && (PaidRows(o.history) == 1 ==> !Open(o.status) && o.status != Pending && !(o.status == Cancelled && ByTimeout(o.history)))
  }

  /** Cancelled, and not by a timeout: no payment brings it back. */
  predicate Buried(o: Order) {
    o.status == Cancelled && !ByTimeout(o.history)
  }

  /** Every relation here composes: a step may be made of several. */
  predicate Evolves(o: Order, o': Order) {
    && o'.lines == o.lines && o'.cartToken == o.cartToken && o'.money.subtotal == o.money.subtotal
    && (Open(o'.status) ==> Open(o.status) || o.status == Pending)
    && (o'.status == Pending ==> o.status == Pending)
    && (Buried(o) ==> o'.status == o.status && o'.history == o.history)
    && (PaidForGood(o) ==> PaidForGood(o'))
    && RestoreRows(o'.history) + PaidRows(o.history) <= RestoreRows(o.history) + PaidRows(o'.history)
  }

  ghost predicate CompletionsOk(s: Shop) {
    forall id: nat :: CompletionOk(s, id)
  }

  /** Orders evolve, new ones are new, and completions keep counting payments. */
  ghost predicate Evolved(s: Shop, s': Shop) {
    && |s.orders| <= |s'.orders|
    && (forall j :: 0 <= j < |s.orders| ==> Evolves(s.orders[j], s'.orders[j]))
    && (forall j :: |s.orders| <= j < |s'.orders| ==> IsNew(s'.orders[j]))
    && (CompletionsOk(s) ==> CompletionsOk(s'))
  }

  lemma EvolvedThen(s: Shop, s1: Shop, s2: Shop)
    requires Evolved(s, s1) && Evolved(s1, s2) && |s.orders| == |s1.orders|
    ensures Evolved(s, s2)
  {
    forall j | 0 <= j < |s.orders| ensures Evolves(s.orders[j], s2.orders[j]) {
      assert Evolves(s.orders[j], s1.orders[j]) && Evolves(s1.orders[j], s2.orders[j]);
    }
  }

  /** Only the queue, the stock, the clock or an order's labels change. */
  lemma RelabelledEvolved(s: Shop, s': Shop)
    requires |s'.orders| == |s.orders| && s'.completions == s.completions
    requires forall j :: 0 <= j < |s.orders| ==> Relabelled(s.orders[j], s'.orders[j])
    ensures Evolved(s, s')
  {
    if CompletionsOk(s) {
      forall id: nat ensures CompletionOk(s', id) { assert CompletionOk(s, id); }
    }
  }

  predicate Relabelled(o: Order, o': Order) {
    && o'.status == o.status && o'.history == o.history
    && o'.lines == o.lines && o'.cartToken == o.cartToken && o'.money.subtotal == o.money.subtotal
  }

  /** One order evolves, and is counted once more exactly when it is paid once more. */
  lemma OneEvolved(s: Shop, s': Shop, id: nat, paid: bool)
    requires id < |s.orders| && |s'.orders| == |s.orders| && s'.orders == s.orders[id := s'.orders[id]]
    requires Evolves(s.orders[id], s'.orders[id])
    requires PaidRows(s'.orders[id].history) == PaidRows(s.orders[id].history) + if paid then 1 else 0
    requires s'.completions == if paid then s.completions + multiset{id} else s.completions
    ensures Evolved(s, s')
  {
    if CompletionsOk(s) {
      forall j: nat ensures CompletionOk(s', j) { assert CompletionOk(s, j); }
    }
  }

  /** An allowed transition; the system cancels open orders only. */
  lemma AppendedEvolves(o: Order, row: HistoryRow)
    requires row.from == Some(o.status) && row.to in AllowedFrom(o.status)
    requires row.to == Cancelled ==> row.admin.Some? || Open(o.status)
    ensures Evolves(o, o.(status := row.to, history := o.history + [row]))
    ensures PaidRows(o.history + [row]) == PaidRows(o.history) + if row.to == Paid then 1 else 0
  {
    var h := o.history + [row];
    HistoryOfAppend(o.history, row);
    assert o.status != Cancelled && !IsRestore(row);
    if row.to == Cancelled && row.admin.Some? { assert h[|h| - 1] == row && !ByTimeout(h); }
  }

  lemma TransitionedEvolved(s: Shop, id: nat, to: Status, note: string, admin: Option<string>)
    requires id < |s.orders| && to == Cancelled ==> admin.Some? || Open(s.orders[id].status)
    ensures Evolved(s, Transitioned(s, id, to, note, admin).shop)
  {
    if id < |s.orders| && to in AllowedFrom(s.orders[id].status) {
      AppendedEvolves(s.orders[id], HistoryRow(Some(s.orders[id].status), to, note, admin));
      OneEvolved(s, Transitioned(s, id, to, note, admin).shop, id, to == Paid);
    } else {
      RelabelledEvolved(s, s);
    }
  }

  lemma LinkedEvolved(s: Shop, id: nat, i: string)
    requires id < |s.orders|
    ensures Evolved(s, Linked(s, id, i))
  {
    RelabelledEvolved(s, Linked(s, id, i));
  }

  lemma PaidFromEvolved(s: Shop, id: nat, status: Status, i: string)
    requires id < |s.orders|
    ensures Evolved(s, PaidFrom(s, id, status, i).shop) && |PaidFrom(s, id, status, i).shop.orders| == |s.orders|
  {
    var linked := Linked(s, id, i);
    LinkedEvolved(s, id, i);
    TransitionedEvolved(linked, id, AwaitingPayment, "Payment initiated", None);
    var waiting := if status == Draft then Transitioned(linked, id, AwaitingPayment, "Payment initiated", None).shop else linked;
    RelabelledEvolved(linked, linked);
    EvolvedThen(s, linked, waiting);
    TransitionedEvolved(waiting, id, Paid, "Payment confirmed", None);
    EvolvedThen(s, waiting, PaidFrom(s, id, status, i).shop);
  }

  /** A timed-out order is restored and paid in one go. */
  lemma RestoredPaidEvolved(s: Shop, id: nat, i: string)
    requires id < |s.orders| && s.orders[id].status == Cancelled && ByTimeout(s.orders[id].history) && Reinstated(s, id).Ok?
    ensures Evolved(s, PaidFrom(Reinstated(s, id).value, id, Cancelled, i).shop)
  {
    var o, s1 := s.orders[id], Reinstated(s, id).value;
    var o1 := s1.orders[id];
    var s' := PaidFrom(s1, id, Cancelled, i).shop;
    var o' := s'.orders[id];
    var row := HistoryRow(Some(AwaitingPayment), Paid, "Payment confirmed", None);
    HistoryOfAppend(o.history, RESTORED);
    HistoryOfAppend(o1.history, row);
    assert o' == o.(status := Paid, history := o1.history + [row], paymentIntent := Some(i));
    OneEvolved(s, s', id, true);
  }

  lemma ConfirmedEvolved(s: Shop, id: nat, i: string)
    ensures Evolved(s, Confirmed(s, id, i).shop) && |Confirmed(s, id, i).shop.orders| == |s.orders|
  {
    RelabelledEvolved(s, s);
    if id < |s.orders| && s.orders[id].status != Paid {
      if s.orders[id].status != Cancelled {
        PaidFromEvolved(s, id, s.orders[id].status, i);
      } else if ByTimeout(s.orders[id].history) && Reinstated(s, id).Ok? {
        RestoredPaidEvolved(s, id, i);
      }
    }
  }

  lemma ReconciledEvolved(w: World, id: nat, up: bool, crash: bool)
    ensures Evolved(w.shop, Reconciled(w, id, up, crash).0.shop) && |Reconciled(w, id, up, crash).0.shop.orders| == |w.shop.orders|
  {
    RelabelledEvolved(w.shop, w.shop);
    var i := SucceededIntent(w, id, up);
    if i.Some? { ConfirmedEvolved(w.shop, id, i.value); }
  }

  lemma {:induction false} SweptEvolved(w: World, ids: seq<nat>, unread: set<nat>)
    ensures Evolved(w.shop, Swept(w, ids, unread).0.shop) && |Swept(w, ids, unread).0.shop.orders| == |w.shop.orders|
  {
    RelabelledEvolved(w.shop, w.shop);
    if ids != [] {
      var w1 := Swept(w, ids[..|ids| - 1], unread).0;
      SweptEvolved(w, ids[..|ids| - 1], unread);
      ReconciledEvolved(w1, ids[|ids| - 1], ids[|ids| - 1] !in unread, false);
      EvolvedThen(w.shop, w1.shop, Swept(w, ids, unread).0.shop);
    }
  }

  lemma ExpiredEvolved(w: World, key: JobKey, up: bool, again: bool, lag: nat)
    requires key.order < |w.shop.orders| && Open(w.shop.orders[key.order].status)
    ensures var s' := Expired(w, key, up, again, lag).shop; Evolved(w.shop, s') && |s'.orders| == |w.shop.orders|
  {
    match IntentStateOf(w, key.order, up, again).1
    case MoneyHeld => ReconciledEvolved(w, key.order, again, false);
    case InFlight => RelabelledEvolved(w.shop, Postponed(w, key, lag).shop);
    case NoMoney => TransitionedEvolved(w.shop, key.order, Cancelled, "Reservation expired — payment timeout", None);
  }

  lemma FiredEvolved(w: World, key: JobKey, up: bool, again: bool, lag: nat)
    ensures var s' := Fired(w, key, up, again, lag).shop; Evolved(w.shop, s') && |s'.orders| == |w.shop.orders|
  {
    var done := w.(shop := w.shop.(jobs := w.shop.jobs - {key}));
    RelabelledEvolved(w.shop, done.shop);
    if key.order < |w.shop.orders| && Open(w.shop.orders[key.order].status) {
      ExpiredEvolved(done, key, up, again, lag);
      EvolvedThen(w.shop, done.shop, Expired(done, key, up, again, lag).shop);
    }
  }

  lemma MintedEvolved(w: World, id: nat, newId: string, testAllowed: bool, g: Gateway, lag: nat)
    ensures var s' := Minted(w, id, newId, testAllowed, g, lag).0.shop; Evolved(w.shop, s') && |s'.orders| == |w.shop.orders|
  {
    RelabelledEvolved(w.shop, Minted(w, id, newId, testAllowed, g, lag).0.shop);
  }

  lemma WebhookEvolved(w: World, i: string, crash: bool)
    ensures var s' := Next(w, WebhookStep(i, crash)).shop; Evolved(w.shop, s') && |s'.orders| == |w.shop.orders|
  {
    RelabelledEvolved(w.shop, w.shop);
    if i in w.stripe && w.stripe[i].order.Some? { ConfirmedEvolved(w.shop, w.stripe[i].order.value, i); }
  }

  lemma ReconcileEvolved(w: World, id: nat, up: bool, crash: bool)
    ensures var s' := Next(w, ReconcileStep(id, up, crash)).shop; Evolved(w.shop, s') && |s'.orders| == |w.shop.orders|
  {
    ReconciledEvolved(w, id, up, crash);
  }

  lemma SweepEvolved(w: World, ids: seq<nat>, unread: set<nat>)
    ensures var s' := Next(w, SweepStep(ids, unread)).shop; Evolved(w.shop, s') && |s'.orders| == |w.shop.orders|
  {
    SweptEvolved(w, ids, unread);
  }

  lemma TimerEvolved(w: World, key: JobKey, up: bool, again: bool, lag: nat)
    ensures var s' := Next(w, TimerStep(key, up, again, lag)).shop; Evolved(w.shop, s') && |s'.orders| == |w.shop.orders|
  {
    var w' := Next(w, TimerStep(key, up, again, lag));
    if w' == w { RelabelledEvolved(w.shop, w.shop); } else { FiredEvolved(w, key, up, again, lag); }
  }

  lemma FailedEvolved(w: World, event: string, i: string, intent: Intent, lag: nat)
    ensures var s' := PaymentFailed(w, event, i, intent, lag).shop; Evolved(w.shop, s') && |s'.orders| == |w.shop.orders|
  {
    RelabelledEvolved(w.shop, PaymentFailed(w, event, i, intent, lag).shop);
  }

  lemma RefundedEvolved(w: World, event: string, charge: string, id: nat, amount: int, crash: bool)
    ensures var s' := ChargeRefunded(w, event, charge, id, amount, crash).shop; Evolved(w.shop, s') && |s'.orders| == |w.shop.orders|
  {
    RelabelledEvolved(w.shop, w.shop);
    TransitionedEvolved(w.shop, id, Refunded, "Refunded via Stripe", None);
  }

  lemma SettlingEvolved(w: World, step: Step)
    requires Settling(step)
    ensures Evolved(w.shop, Next(w, step).shop) && |Next(w, step).shop.orders| == |w.shop.orders|
  {
    match step
    case WebhookStep(i, crash) => WebhookEvolved(w, i, crash);
    case ReconcileStep(id, up, crash) => ReconcileEvolved(w, id, up, crash);
    case SweepStep(ids, unread) => SweepEvolved(w, ids, unread);
    case TimerStep(key, up, again, lag) => TimerEvolved(w, key, up, again, lag);
  }

  lemma StripeEvolved(w: World, step: Step)
    requires ByStripe(step)
    ensures Evolved(w.shop, Next(w, step).shop) && |Next(w, step).shop.orders| == |w.shop.orders|
  {
    RelabelledEvolved(w.shop, w.shop);
    match step
    case MintStep(id, newId, testAllowed, g, lag) => MintedEvolved(w, id, newId, testAllowed, g, lag);
    case FailedStep(event, i, lag) => if i in w.stripe { FailedEvolved(w, event, i, w.stripe[i], lag); }
    case RefundStep(event, charge, id, amount, crash) => RefundedEvolved(w, event, charge, id, amount, crash);
    case _ => SettlingEvolved(w, step);
  }

  lemma CreatedEvolved(s: Shop, o: Order)
    requires Created(s, o).Ok? && IsNew(o)
    ensures Evolved(s, Created(s, o).value)
  {
    var s' := Created(s, o).value;
    NewOrderHistory(o);
    if CompletionsOk(s) {
      forall id: nat ensures CompletionOk(s', id) { assert CompletionOk(s, id); }
    }
  }

  lemma DraftPlacedEvolved(s: Shop, c: Cart, p: Pricing, pricesOk: bool, lag: nat)
    ensures Evolved(s, DraftPlaced(s, c, p, pricesOk, lag).shop)
  {
    RelabelledEvolved(s, s);
    if pricesOk && Created(s, NewDraft(s, c, p)).Ok? {
      var s1 := Created(s, NewDraft(s, c, p)).value;
      var s' := DraftPlaced(s, c, p, pricesOk, lag).shop;
      CreatedEvolved(s, NewDraft(s, c, p));
      if CompletionsOk(s1) {
        forall id: nat ensures CompletionOk(s', id) { assert CompletionOk(s1, id); }
      }
    }
  }

  /** The order whose total checkout rewrites, if it resumes one. */
  function ResumedBy(s: Shop, step: Step): Option<nat> {
    if !step.InitiateStep? || step.cart.None? || step.cart.value.lines == [] then None
    else
      var found := FindOpen(s.orders, step.cart.value.token);
      if found.Some? && Outdated(s.orders[found.value], step.cart.value.lines) then None else found
  }

  lemma InitiatedEvolved(s: Shop, step: Step)
    requires step.InitiateStep? && ResumedBy(s, step).None?
    ensures Evolved(s, Initiated(s, step.cart, step.pricing, step.pricesOk, step.lag).shop)
  {
    RelabelledEvolved(s, s);
    if step.cart.Some? && step.cart.value.lines != [] {
      var c := step.cart.value;
      var found := FindOpen(s.orders, c.token);
      if found.None? {
        DraftPlacedEvolved(s, c, step.pricing, step.pricesOk, step.lag);
      } else {
        var s1 := Transitioned(s, found.value, Cancelled, REBUILT_NOTE, None).shop;
        TransitionedEvolved(s, found.value, Cancelled, REBUILT_NOTE, None);
        DraftPlacedEvolved(s1, c, step.pricing, step.pricesOk, step.lag);
        EvolvedThen(s, s1, DraftPlaced(s1, c, step.pricing, step.pricesOk, step.lag).shop);
      }
    }
  }

  lemma ReadyEvolved(s: Shop, id: nat, testAllowed: bool, freeShipping: bool, pickupOk: bool)
    ensures var s' := MadeReady(s, id, testAllowed, freeShipping, pickupOk).shop; Evolved(s, s') && |s'.orders| == |s.orders|
  {
    RelabelledEvolved(s, s);
    TransitionedEvolved(s, id, AwaitingPayment, "Customer proceeded to payment", None);
  }

  lemma AdminEvolved(s: Shop, id: nat, to: Status, note: string, admin: string)
    ensures var s' := (if to == Paid then MarkedPaid(s, id, note) else Transitioned(s, id, to, note, Some(admin))).shop;
            Evolved(s, s') && |s'.orders| == |s.orders|
  {
    RelabelledEvolved(s, s);
    if to != Paid {
      TransitionedEvolved(s, id, to, note, Some(admin));
    } else if id < |s.orders| {
      ConfirmedEvolved(s, id, ManualIntent(s.orders[id], note));
    }
  }

  lemma LabelsEvolved(w: World, step: Step)
    requires step.ShippingStep? || step.AdjustStep? || step.RestockStep? || step.StripeStep? || step.TickStep?
    ensures Evolved(w.shop, Next(w, step).shop) && |Next(w, step).shop.orders| == |w.shop.orders|
  {
    RelabelledEvolved(w.shop, Next(w, step).shop);
  }

  lemma ShopEvolved(w: World, step: Step)
    requires !ByStripe(step) && !step.InitiateStep? && !step.CreateFromCartStep?
    ensures Evolved(w.shop, Next(w, step).shop) && |Next(w, step).shop.orders| == |w.shop.orders|
  {
    match step
    case ReadyStep(id, testAllowed, freeShipping, pickupOk) => ReadyEvolved(w.shop, id, testAllowed, freeShipping, pickupOk);
    case AdminStep(id, to, note, admin) => AdminEvolved(w.shop, id, to, note, admin);
    case ReturnClosedStep(id) => TransitionedEvolved(w.shop, id, Refunded, "Fully refunded via returns", None);
    case _ => LabelsEvolved(w, step);
  }

  /** Every whole step but a resumption evolves the shop; a resumption re-prices one open order. */
  lemma NextEvolved(w: World, step: Step)
    ensures var resumed := ResumedBy(w.shop, step);
            if resumed.None? then Evolved(w.shop, Next(w, step).shop)
            else resumed.value < |w.shop.orders| && Next(w, step).shop == Resumed(w.shop, resumed.value, step.cart.value.lines, step.pricing)
    ensures !step.InitiateStep? && !step.CreateFromCartStep? ==> |Next(w, step).shop.orders| == |w.shop.orders|
  {
    if ByStripe(step) {
      StripeEvolved(w, step);
    } else if step.InitiateStep? {
      if ResumedBy(w.shop, step).None? { InitiatedEvolved(w.shop, step); }
    } else if step.CreateFromCartStep? {
      RelabelledEvolved(w.shop, w.shop);
      var s' := Next(w, step).shop;
      if s' != w.shop { CreatedEvolved(w.shop, s'.orders[|w.shop.orders|]); }
    } else {
      ShopEvolved(w, step);
    }
  }

  // ── Histories in every run ─────────────────────────────────────────────

  /** A restore happens only on the way to a payment. */
  ghost predicate NoIdleRestore(s: Shop) {
    forall id :: 0 <= id < |s.orders| ==> RestoreRows(s.orders[id].history) <= PaidRows(s.orders[id].history)
  }

  lemma NextRestores(w: World, step: Step)
    requires NoIdleRestore(w.shop)
    ensures NoIdleRestore(Next(w, step).shop)
  {
    NextEvolved(w, step);
    var s, s' := w.shop, Next(w, step).shop;
    if ResumedBy(s, step).None? {
      forall id | 0 <= id < |s'.orders| ensures RestoreRows(s'.orders[id].history) <= PaidRows(s'.orders[id].history) {
        if id < |s.orders| { assert Evolves(s.orders[id], s'.orders[id]); } else { NewOrderHistory(s'.orders[id]); }
      }
    }
  }

  lemma {:induction false} RunRestores(w: World, steps: seq<Step>)
    requires NoIdleRestore(w.shop)
    ensures NoIdleRestore(Run(w, steps).shop)
  {
    if steps != [] {
      RunRestores(w, steps[..|steps| - 1]);
      NextRestores(Run(w, steps[..|steps| - 1]), steps[|steps| - 1]);
    }
  }

  /** In every reachable state an order's history is a chain to its status with at most one payment and one restore, each counted once. */
  lemma HistoryInEveryRun(opening: map<Variant, int>, steps: seq<Step>, id: nat)
    requires forall u :: u in opening ==> 0 <= opening[u]
    requires id < |Run(Opened(opening), steps).shop.orders|
    ensures var s := Run(Opened(opening), steps).shop;
            var o := s.orders[id];
            && ChainOk(o)
            && RestoreRows(o.history) <= PaidRows(o.history) == s.completions[id] <= 1
            && o.status != Pending
            && MoneyOk(o.money)
  {
    OpenedGood(opening);
    RunGood(opening, Opened(opening), steps);
    RunRestores(Opened(opening), steps);
    var s := Run(Opened(opening), steps).shop;
    assert OrderOk(s.orders[id]) && CompletionOk(s, id);
  }
}
