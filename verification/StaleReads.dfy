/**
 * What stale reads cost. Exactly which late writes break the invariants of whole
 * calls, for each kind of write and over whole runs; and what the reservation
 * queue still promises when none of them lands.
 */
module StaleReads {
  import opened Common
  import opened Inventory
  import opened Orders
  import opened OrderInvariants
  import opened Payments
  import opened Lifecycle
  import opened Reservations
  import opened Interleavings
  import opened Evolution
  import opened Confirmations

  /**
   * When a late write keeps every invariant: a rebuild finds its order neither
   * paid nor processing; a re-pricing finds it unpaid, or under the same coupon;
   * a restore finds it cancelled and never paid; a status write finds the status
   * it read, and only a person cancels a paid order. Creations may be as stale
   * as they like.
   */
  predicate Harmless(s: Shop, call: Call) {
    match call
    case Rebuilding(_, _, _, id) => id < |s.orders| ==> s.orders[id].status !in {Paid, Processing}
    case Resuming(_, p, id) => id < |s.orders| ==> PaidRows(s.orders[id].history) == 0 || p.coupon == s.orders[id].coupon
    case Restoring(id, _) =>
      id < |s.orders| && Reinstated(s, id).Ok? ==> s.orders[id].status == Cancelled && PaidRows(s.orders[id].history) == 0
    case Writing(id, prev, to, _, admin, _) =>
      Valid(s, call) ==> prev == s.orders[id].status && (to == Cancelled && PaidRows(s.orders[id].history) == 1 ==> admin.Some?)
    case _ => true
  }

  predicate HarmlessAction(sys: System, action: Action) {
    action.Proceed? && action.call < |sys.calls| ==> Harmless(sys.world.shop, sys.calls[action.call])
  }

  predicate HarmlessRun(sys: System, actions: seq<Action>) {
    actions != [] ==>
      && HarmlessRun(sys, actions[..|actions| - 1])
      && HarmlessAction(ActedAll(sys, actions[..|actions| - 1]), actions[|actions| - 1])
  }

  // ── What each stale write breaks ───────────────────────────────────────

  /** A status write keeps the history a chain exactly when the status is still the one read. */
  lemma StaleWriteHistoryIff(s: Shop, id: nat, prev: Status, to: Status, note: string, admin: Option<string>)
    requires id < |s.orders| && ChainOk(s.orders[id]) && to in AllowedFrom(prev)
    ensures ChainOk(Committed(s, id, prev, to, note, admin).orders[id]) <==> prev == s.orders[id].status
  {
    var o, row := s.orders[id], HistoryRow(Some(prev), to, note, admin);
    if prev == o.status {
      ChainOfAppend(o, row);
    } else {
      ChainBroken(o, row);
    }
  }

  lemma ChainBroken(o: Order, row: HistoryRow)
    requires ChainOk(o) && row.from != Some(o.status)
    ensures !ChainOk(o.(status := row.to, history := o.history + [row]))
  {
    var h := o.history + [row];
    assert h[|o.history|] == row && h[|o.history| - 1].to == o.status;
    assert !Follows(h, |o.history|);
  }

  /**
   * readyForPayment writes on the strength of a draft status read earlier, in no
   * transaction: the stock sums survive exactly when the order still holds its
   * reservation, or holds no tracked units, and the history exactly when it is
   * still a draft. A reservation that ended in between is lost from the sums.
   */
  lemma StaleReadyIff(opening: map<Variant, int>, s: Shop, id: nat, note: string)
    requires id < |s.orders| && StockOk(opening, s) && ChainOk(s.orders[id])
    ensures var s' := Committed(s, id, Draft, AwaitingPayment, note, None);
            && s'.orders[id].status == AwaitingPayment && s'.book == s.book
            && (StockOk(opening, s') <==> HoldOf(s.orders[id].status) == InReserved || !HoldsUnits(s, id))
            && (ChainOk(s'.orders[id]) <==> s.orders[id].status == Draft)
  {
    StaleTransitionIff(opening, s, id, Draft, AwaitingPayment, note, None);
    StaleWriteHistoryIff(s, id, Draft, AwaitingPayment, note, None);
  }

  /** Re-pricing an order found by an earlier lookup keeps coupon uses right exactly when it is unpaid still, or the coupon is the same. */
  lemma StaleResumeIff(s: Shop, id: nat, lines: seq<Line>, p: Pricing)
    requires id < |s.orders| && CountsOk(s)
    ensures CountsOk(Resumed(s, id, lines, p)) <==> PaidRows(s.orders[id].history) == 0 || p.coupon == s.orders[id].coupon
  {
    var s', o := Resumed(s, id, lines, p), s.orders[id];
    if PaidRows(o.history) == 0 || p.coupon == o.coupon {
      RelabelledCounts(s, s', id, s'.orders[id]);
    } else {
      var code := if o.coupon.Some? then o.coupon.value else p.coupon.value;
      assert RedemptionOk(s, code);
      TallyOfUpdate(s.orders, id, s'.orders[id], RedeemedBy(code));
      assert !RedemptionOk(s', code);
    }
  }

  /** A payment has been started for the order, or made. */
  predicate PaymentBehind(o: Order) {
    o.paymentIntent.Some? || PaidRows(o.history) > 0
  }

  /**
   * A rebuild looks only at the status it may cancel from. It cancels an order
   * with a payment behind it exactly when that order is paid or in processing,
   * or open with an intent minted since the lookup. Stripe is not told, and no
   * confirmation, under any intent, brings the order back.
   */
  lemma StaleRebuildIff(opening: map<Variant, int>, w: World, call: Call, lag: nat)
    requires GoodWorld(opening, w) && call.Rebuilding? && call.id < |w.shop.orders| && w.shop.orders[call.id].status != Cancelled
    ensures var w', o := Carried(w, call, lag).0, w.shop.orders[call.id];
            && |w'.shop.orders| == |w.shop.orders|
            && var o' := w'.shop.orders[call.id];
               && (o'.status == Cancelled && PaymentBehind(o') <==> o.status in {Paid, Processing} || (Open(o.status) && o.paymentIntent.Some?))
               && (o'.status == Cancelled ==>
                     && w'.stripe == w.stripe && o'.paymentIntent == o.paymentIntent
                     && Buried(o')
                     && forall i :: Confirmed(w'.shop, call.id, i) == Reply(w'.shop, Some(CancelledByHand)))
  {
    var o := w.shop.orders[call.id];
    assert OrderOk(o);
    if Cancelled in AllowedFrom(o.status) { RebuiltOrder(w, call, lag); }
  }

  /** The cancelled order keeps its intent and payments, and is buried. */
  lemma RebuiltOrder(w: World, call: Call, lag: nat)
    requires call.Rebuilding? && call.id < |w.shop.orders| && Cancelled in AllowedFrom(w.shop.orders[call.id].status)
    ensures var w', o := Carried(w, call, lag).0, w.shop.orders[call.id];
            && |w'.shop.orders| == |w.shop.orders| && w'.stripe == w.stripe
            && var o' := w'.shop.orders[call.id];
               Buried(o') && o'.paymentIntent == o.paymentIntent && PaidRows(o'.history) == PaidRows(o.history)
  {
    var o := w.shop.orders[call.id];
    var row := HistoryRow(Some(o.status), Cancelled, REBUILT_NOTE, None);
    HistoryOfAppend(o.history, row);
    LastRowDecides(o.history, row);
    RebuiltNoteIsNoTimeout();
  }

  /** A rebuild keeps the invariants exactly when its order is neither paid nor in processing. */
  lemma RebuiltGoodIff(opening: map<Variant, int>, w: World, call: Call, lag: nat)
    requires GoodWorld(opening, w) && call.Rebuilding?
    ensures GoodWorld(opening, Carried(w, call, lag).0) <==> Harmless(w.shop, call)
  {
    var s := w.shop;
    if call.id < |s.orders| {
      var o := s.orders[call.id];
      assert OrderOk(o);
      if Open(o.status) {
        TransitionedGood(opening, s, call.id, Cancelled, REBUILT_NOTE, None);
      } else if o.status in {Paid, Processing} {
        var row := HistoryRow(Some(o.status), Cancelled, REBUILT_NOTE, None);
        HistoryOfAppend(o.history, row);
        assert Carried(w, call, lag).0.shop.orders[call.id] == o.(status := Cancelled, history := o.history + [row]);
        assert !PaidOnce(o.(status := Cancelled, history := o.history + [row]));
      }
    }
  }

  lemma ResumedGoodIff(opening: map<Variant, int>, w: World, call: Call, lag: nat)
    requires GoodWorld(opening, w) && call.Resuming?
    ensures GoodWorld(opening, Carried(w, call, lag).0) <==> Harmless(w.shop, call)
  {
    var s, s', id := w.shop, Carried(w, call, lag).0.shop, call.id;
    if id < |s.orders| {
      assert OrderOk(s.orders[id]);
      StaleResumeIff(s, id, call.cart.lines, call.pricing);
      if Harmless(s, call) { RelabelledGood(opening, s, s', id, s'.orders[id]); }
    }
  }

  lemma RestoredGoodIff(opening: map<Variant, int>, w: World, call: Call, lag: nat)
    requires GoodWorld(opening, w) && call.Restoring?
    ensures GoodWorld(opening, Carried(w, call, lag).0) <==> Harmless(w.shop, call)
  {
    var s, s', id := w.shop, Carried(w, call, lag).0.shop, call.id;
    if id < |s.orders| && Reinstated(s, id).Ok? {
      var o := s.orders[id];
      assert OrderOk(o);
      HistoryOfAppend(o.history, RESTORED);
      if Harmless(s, call) {
        ReinstatedStockIff(opening, s, id);
        ChainOfAppend(o, RESTORED);
        RelabelledCounts(s, s', id, s'.orders[id]);
        GoodOfUpdate(opening, s, s', id);
      } else if o.status != Cancelled {
        ChainBroken(o, RESTORED);
        assert !ChainOk(s'.orders[id]);
      } else {
        assert !PaidOnce(s'.orders[id]);
      }
    }
  }

  lemma WrittenGoodIff(opening: map<Variant, int>, w: World, call: Call, lag: nat)
    requires GoodWorld(opening, w) && Valid(w.shop, call)
    ensures GoodWorld(opening, Carried(w, call, lag).0) <==> Harmless(w.shop, call)
  {
    var s, id := w.shop, call.id;
    var o, s' := s.orders[id], Carried(w, call, lag).0.shop;
    assert OrderOk(o);
    StaleWriteHistoryIff(s, id, call.prev, call.to, call.note, call.admin);
    if Harmless(s, call) {
      TransitionedGood(opening, s, id, call.to, call.note, call.admin);
    } else if call.prev == o.status {
      HistoryOfAppend(o.history, HistoryRow(Some(o.status), call.to, call.note, call.admin));
      assert !PaidOnce(s'.orders[id]);
    } else {
      assert !OrderOk(s'.orders[id]);
    }
  }

  /** The next database call of a call in flight keeps every invariant exactly when it is harmless. */
  lemma CarriedGoodIff(opening: map<Variant, int>, w: World, call: Call, lag: nat)
    requires GoodWorld(opening, w)
    ensures GoodWorld(opening, Carried(w, call, lag).0) <==> Harmless(w.shop, call)
  {
    var s := w.shop;
    match call
    case Rebuilding(_, _, _, _) => RebuiltGoodIff(opening, w, call, lag);
    case Resuming(_, _, _) => ResumedGoodIff(opening, w, call, lag);
    case Restoring(_, _) => RestoredGoodIff(opening, w, call, lag);
    case Writing(_, _, _, _, _, _) => if Valid(s, call) { WrittenGoodIff(opening, w, call, lag); }
    case Building(c, p, pricesOk) => if pricesOk && Created(s, NewDraft(s, c, p)).Ok? { CreatedGood(opening, s, NewDraft(s, c, p)); }
    case Placed(_) => RequeuedGood(opening, s, Carried(w, call, lag).0.shop);
    case Linking(id, i, _) => if id < |s.orders| { LinkedGood(opening, s, id, i); }
    case _ =>
  }

  lemma LinkedGood(opening: map<Variant, int>, s: Shop, id: nat, i: string)
    requires Good(opening, s) && id < |s.orders|
    ensures Good(opening, Linked(s, id, i))
  {
    assert OrderOk(s.orders[id]);
    RelabelledGood(opening, s, Linked(s, id, i), id, Linked(s, id, i).orders[id]);
  }

  lemma ActedGoodIff(opening: map<Variant, int>, sys: System, action: Action)
    requires GoodWorld(opening, sys.world)
    ensures GoodWorld(opening, Acted(sys, action).world) <==> HarmlessAction(sys, action)
  {
    match action
    case Whole(step) => NextGood(opening, sys.world, step);
    case Proceed(n, lag) => if n < |sys.calls| { CarriedGoodIff(opening, sys.world, sys.calls[n], lag); }
    case _ =>
  }

  ghost predicate GoodAlways(opening: map<Variant, int>, sys: System, actions: seq<Action>) {
    && GoodWorld(opening, ActedAll(sys, actions).world)
    && (actions != [] ==> GoodAlways(opening, sys, actions[..|actions| - 1]))
  }

  /**
   * Whatever is in flight, the invariants of whole calls (stock sums, chained
   * histories with one payment, counts, coupon uses, totals and the ledger)
   * hold all along exactly when every late write is harmless.
   */
  lemma {:induction false} GoodAlwaysIff(opening: map<Variant, int>, sys: System, actions: seq<Action>)
    requires GoodWorld(opening, sys.world)
    ensures GoodAlways(opening, sys, actions) <==> HarmlessRun(sys, actions)
  {
    if actions != [] {
      var front, last := actions[..|actions| - 1], actions[|actions| - 1];
      GoodAlwaysIff(opening, sys, front);
      if HarmlessRun(sys, front) { ActedGoodIff(opening, ActedAll(sys, front), last); }
    }
  }

  // ── The queue ──────────────────────────────────────────────────────────

  /** A checkout that has yet to queue its order's expiry job, or a confirmation that has yet to link its intent: in flight, or dead. */
  predicate Unfinished(call: Call) {
    call.Placed? || call.Linking?
  }

  function UnfinishedOrders(calls: seq<Call>): set<nat> {
    set n | 0 <= n < |calls| && Unfinished(calls[n]) :: calls[n].id
  }

  /** A confirmation is under an intent of its order that Stripe says succeeded. */
  predicate SettlingOk(w: World, call: Call) {
    call.Judging? || call.Restoring? || call.Linking? ==>
      && call.id < |w.shop.orders| && call.intent in w.stripe
      && w.stripe[call.intent].status == Succeeded && w.stripe[call.intent].order == Some(call.id)
  }

  /** An order placed is one call's own until its job is queued, and confirmations have their intents. */
  ghost predicate CallsOk(sys: System) {
    && (forall n :: 0 <= n < |sys.calls| ==> SettlingOk(sys.world, sys.calls[n]))
    && (forall n :: 0 <= n < |sys.calls| && sys.calls[n].Placed? ==> JobAbsent(sys.world.shop, sys.calls[n].id))
    && (forall n, m :: 0 <= n < m < |sys.calls| && sys.calls[n].Placed? && sys.calls[m].Placed? ==> sys.calls[n].id != sys.calls[m].id)
  }

  predicate JobAbsent(s: Shop, id: nat) {
    id < |s.orders| && FirstExpiry(id) !in s.jobs
  }

  lemma ConfirmedJobAbsent(s: Shop, j: nat, i: string, id: nat)
    requires JobAbsent(s, id)
    ensures JobAbsent(Confirmed(s, j, i).shop, id)
  {
    ConfirmedJobs(s, j, i);
    ConfirmedLength(s, j, i);
  }

  lemma ConfirmedLength(s: Shop, j: nat, i: string)
    ensures |Confirmed(s, j, i).shop.orders| == |s.orders|
  {
    if j < |s.orders| {
      var status := s.orders[j].status;
      var restored := if status == Cancelled then Restored(s, j).shop else s;
      RestoredJobs(s, j);
      var linked := Linked(restored, j, i);
      TransitionedJobs(linked, j, AwaitingPayment, "Payment initiated");
      var waiting := if status == Draft then Transitioned(linked, j, AwaitingPayment, "Payment initiated", None).shop else linked;
      TransitionedJobs(waiting, j, Paid, "Payment confirmed");
    }
  }

  lemma ReconciledJobAbsent(w: World, j: nat, up: bool, crash: bool, id: nat)
    requires JobAbsent(w.shop, id)
    ensures JobAbsent(Reconciled(w, j, up, crash).0.shop, id)
  {
    var i := SucceededIntent(w, j, up);
    if i.Some? { ConfirmedJobAbsent(w.shop, j, i.value, id); }
  }

  lemma {:induction false} SweptJobAbsent(w: World, ids: seq<nat>, unread: set<nat>, id: nat)
    requires JobAbsent(w.shop, id)
    ensures JobAbsent(Swept(w, ids, unread).0.shop, id)
  {
    if ids != [] {
      SweptJobAbsent(w, ids[..|ids| - 1], unread, id);
      ReconciledJobAbsent(Swept(w, ids[..|ids| - 1], unread).0, ids[|ids| - 1], ids[|ids| - 1] !in unread, false, id);
    }
  }

  lemma FiredJobAbsent(w: World, key: JobKey, up: bool, again: bool, lag: nat, id: nat)
    requires JobAbsent(w.shop, id) && key in w.shop.jobs
    ensures JobAbsent(Fired(w, key, up, again, lag).shop, id)
  {
    var done := Dropped(w, key);
    ReconciledJobAbsent(done, key.order, again, false, id);
    TransitionedJobs(done.shop, key.order, Cancelled, "Reservation expired — payment timeout");
  }

  lemma InitiatedJobAbsent(s: Shop, cart: Option<Cart>, p: Pricing, pricesOk: bool, lag: nat, id: nat)
    requires JobAbsent(s, id)
    ensures JobAbsent(Initiated(s, cart, p, pricesOk, lag).shop, id)
  {
  }

  lemma PayingJobAbsent(w: World, i: string, intent: Intent, crash: bool, id: nat)
    requires JobAbsent(w.shop, id)
    ensures JobAbsent(Paying(w, i, intent, crash).shop, id)
  {
    if intent.order.Some? { ConfirmedJobAbsent(w.shop, intent.order.value, i, id); }
  }

  lemma MintedJobAbsent(w: World, j: nat, newId: string, testAllowed: bool, g: Gateway, lag: nat, id: nat)
    requires JobAbsent(w.shop, id)
    ensures JobAbsent(Minted(w, j, newId, testAllowed, g, lag).0.shop, id)
  {
  }

  lemma FailedJobAbsent(w: World, event: string, i: string, intent: Intent, lag: nat, id: nat)
    requires JobAbsent(w.shop, id)
    ensures JobAbsent(PaymentFailed(w, event, i, intent, lag).shop, id)
  {
  }

  lemma RefundedJobAbsent(w: World, event: string, charge: string, j: nat, amount: int, crash: bool, id: nat)
    requires JobAbsent(w.shop, id)
    ensures JobAbsent(ChargeRefunded(w, event, charge, j, amount, crash).shop, id)
  {
  }

  lemma WebhookJobAbsent(w: World, i: string, crash: bool, id: nat)
    requires JobAbsent(w.shop, id)
    ensures JobAbsent(Next(w, WebhookStep(i, crash)).shop, id)
  {
    if i in w.stripe { PayingJobAbsent(w, i, w.stripe[i], crash, id); }
  }

  lemma TimerJobAbsent(w: World, key: JobKey, up: bool, again: bool, lag: nat, id: nat)
    requires JobAbsent(w.shop, id)
    ensures JobAbsent(Next(w, TimerStep(key, up, again, lag)).shop, id)
  {
    if key in w.shop.jobs { FiredJobAbsent(w, key, up, again, lag, id); }
  }

  lemma SweepJobAbsent(w: World, ids: seq<nat>, unread: set<nat>, id: nat)
    requires JobAbsent(w.shop, id)
    ensures JobAbsent(Next(w, SweepStep(ids, unread)).shop, id)
  {
    SweptJobAbsent(w, ids, unread, id);
  }

  lemma SettlingJobAbsent(w: World, step: Step, id: nat)
    requires JobAbsent(w.shop, id) && Settling(step)
    ensures JobAbsent(Next(w, step).shop, id)
  {
    match step
    case WebhookStep(i, crash) => WebhookJobAbsent(w, i, crash, id);
    case ReconcileStep(j, up, crash) => ReconciledJobAbsent(w, j, up, crash, id);
    case SweepStep(ids, unread) => SweepJobAbsent(w, ids, unread, id);
    case TimerStep(key, up, again, lag) => TimerJobAbsent(w, key, up, again, lag, id);
  }

  lemma StripeJobAbsent(w: World, step: Step, id: nat)
    requires JobAbsent(w.shop, id) && ByStripe(step)
    ensures JobAbsent(Next(w, step).shop, id)
  {
    match step
    case MintStep(j, newId, testAllowed, g, lag) => MintedJobAbsent(w, j, newId, testAllowed, g, lag, id);
    case FailedStep(event, i, lag) => if i in w.stripe { FailedJobAbsent(w, event, i, w.stripe[i], lag, id); }
    case RefundStep(event, charge, j, amount, crash) => RefundedJobAbsent(w, event, charge, j, amount, crash, id);
    case _ => SettlingJobAbsent(w, step, id);
  }

  lemma NextJobAbsent(w: World, step: Step, id: nat)
    requires JobAbsent(w.shop, id)
    ensures JobAbsent(Next(w, step).shop, id)
  {
    match step
    case InitiateStep(cart, p, pricesOk, lag) => InitiatedJobAbsent(w.shop, cart, p, pricesOk, lag, id);
    case AdminStep(j, to, note, admin) =>
      if to == Paid && j < |w.shop.orders| { ConfirmedJobAbsent(w.shop, j, ManualIntent(w.shop.orders[j], note), id); }
    case _ => if ByStripe(step) { StripeJobAbsent(w, step, id); } else { QuietJobAbsent(w, step, id); }
  }

  lemma QuietJobAbsent(w: World, step: Step, id: nat)
    requires JobAbsent(w.shop, id) && !ByStripe(step) && !step.InitiateStep? && !step.AdminStep?
    ensures JobAbsent(Next(w, step).shop, id)
  {
  }

  lemma {:induction false} SweptStripe(w: World, ids: seq<nat>, unread: set<nat>)
    ensures Swept(w, ids, unread).0.stripe == w.stripe
  {
    if ids != [] { SweptStripe(w, ids[..|ids| - 1], unread); }
  }

  /** No step changes a succeeded intent, or whose it is. */
  lemma NextKeepsStripe(w: World, step: Step)
    ensures StripeKept(w, Next(w, step))
  {
    match step
    case MintStep(id, newId, testAllowed, g, lag) => if newId !in w.stripe { MintKeepsStripe(w, id, newId, testAllowed, g, lag); }
    case SweepStep(ids, unread) => SweptStripe(w, ids, unread);
    case TimerStep(key, up, again, lag) => FiredStripe(w, key, up, again, lag);
    case _ =>
  }

  lemma ExpiredStripe(w: World, key: JobKey, up: bool, again: bool, lag: nat)
    ensures Expired(w, key, up, again, lag).stripe == w.stripe
  {
  }

  lemma FiredStripe(w: World, key: JobKey, up: bool, again: bool, lag: nat)
    ensures Fired(w, key, up, again, lag).stripe == w.stripe
  {
    ExpiredStripe(Dropped(w, key), key, up, again, lag);
  }

  lemma MintKeepsStripe(w: World, id: nat, newId: string, testAllowed: bool, g: Gateway, lag: nat)
    requires newId !in w.stripe
    ensures StripeKept(w, Minted(w, id, newId, testAllowed, g, lag).0)
  {
  }

  // ── Coverage ───────────────────────────────────────────────────────────

  lemma QueueingMore(pending: set<nat>, more: set<nat>, w: World)
    requires Queueing(pending, w) && pending <= more
    ensures Queueing(more, w)
  {
  }

  lemma BuiltQueueing(pending: set<nat>, w: World, c: Cart, p: Pricing)
    requires Queueing(pending, w) && Created(w.shop, NewDraft(w.shop, c, p)).Ok?
    ensures Queueing(pending + {|w.shop.orders|}, w.(shop := Created(w.shop, NewDraft(w.shop, c, p)).value))
  {
    var w' := w.(shop := Created(w.shop, NewDraft(w.shop, c, p)).value);
    forall key | key in w'.shop.jobs ensures JobOk(w'.shop, key) { assert JobOk(w.shop, key); }
    QueueingStep(pending, pending + {|w.shop.orders|}, w, w', |w.shop.orders|);
  }

  lemma QueuedQueueing(pending: set<nat>, w: World, id: nat, lag: nat)
    requires Queueing(pending, w) && JobAbsent(w.shop, id)
    ensures Queueing(pending - {id}, Carried(w, Placed(id), lag).0)
  {
    var w' := Carried(w, Placed(id), lag).0;
    forall key | key in w'.shop.jobs ensures JobOk(w'.shop, key) {
      if key in w.shop.jobs { assert JobOk(w.shop, key); }
    }
    assert Timed(w.shop.orders[id], w.shop.now) && OwnIntent(w, id);
    JobCovers(w', id, FirstExpiry(id));
    QueueingStep(pending, pending - {id}, w, w', id);
  }

  /** A restored order is past its deadline, and no job may be left for it. */
  lemma RestoredQueueing(pending: set<nat>, w: World, id: nat)
    requires Queueing(pending, w) && id < |w.shop.orders| && Reinstated(w.shop, id).Ok? && Unsettled(w.shop.orders[id])
    ensures Queueing(pending + {id}, w.(shop := Reinstated(w.shop, id).value))
  {
    var w' := w.(shop := Reinstated(w.shop, id).value);
    forall key | key in w'.shop.jobs ensures JobOk(w'.shop, key) { assert JobOk(w.shop, key); }
    assert Timed(w.shop.orders[id], w.shop.now) && OwnIntent(w, id);
    QueueingStep(pending, pending + {id}, w, w', id);
  }

  /** Linking drops the first job, but Stripe holds the money of the intent it links. */
  lemma LinkedQueueing(pending: set<nat>, w: World, id: nat, i: string)
    requires Queueing(pending, w) && SettlingOk(w, Judging(id, i))
    ensures Queueing(pending - {id}, w.(shop := Linked(w.shop, id, i)))
  {
    var w' := w.(shop := Linked(w.shop, id, i));
    forall key | key in w'.shop.jobs ensures JobOk(w'.shop, key) { assert JobOk(w.shop, key); }
    assert Timed(w.shop.orders[id], w.shop.now) && StripeHolds(w', id);
    QueueingStep(pending, pending - {id}, w, w', id);
  }

  function Dropping(pending: set<nat>, call: Call): set<nat> {
    if Unfinished(call) then pending - {call.id} else pending
  }

  function Adding(pending: set<nat>, call: Call): set<nat> {
    if Unfinished(call) then pending + {call.id} else pending
  }

  /** What a call in flight does to the coverage of the orders no call is unfinished on. */
  ghost predicate KeepsCovered(pending: set<nat>, w: World, call: Call, lag: nat) {
    var (w', call') := Carried(w, call, lag);
    Queueing(Adding(Dropping(pending, call), call'), w')
  }

  lemma RebuildingQueueing(opening: map<Variant, int>, pending: set<nat>, w: World, call: Call, lag: nat)
    requires GoodWorld(opening, w) && Queueing(pending, w) && call.Rebuilding?
    ensures KeepsCovered(pending, w, call, lag)
  {
    if call.id < |w.shop.orders| {
      assert OrderOk(w.shop.orders[call.id]);
      TransitionedQueueing(pending, w, call.id, Cancelled, REBUILT_NOTE, None);
    }
  }

  lemma BuildingQueueing(pending: set<nat>, w: World, call: Call, lag: nat)
    requires Queueing(pending, w) && call.Building?
    ensures KeepsCovered(pending, w, call, lag)
  {
    if call.pricesOk && Created(w.shop, NewDraft(w.shop, call.cart, call.pricing)).Ok? {
      BuiltQueueing(pending, w, call.cart, call.pricing);
    }
  }

  lemma RestoringQueueing(pending: set<nat>, w: World, call: Call, lag: nat)
    requires Queueing(pending, w) && call.Restoring? && Harmless(w.shop, call)
    ensures KeepsCovered(pending, w, call, lag)
  {
    if call.id < |w.shop.orders| && Reinstated(w.shop, call.id).Ok? { RestoredQueueing(pending, w, call.id); }
  }

  lemma WritingQueueing(opening: map<Variant, int>, pending: set<nat>, w: World, call: Call, lag: nat)
    requires GoodWorld(opening, w) && Queueing(pending, w) && call.Writing? && Harmless(w.shop, call)
    ensures KeepsCovered(pending, w, call, lag)
  {
    if Valid(w.shop, call) {
      assert OrderOk(w.shop.orders[call.id]);
      TransitionedQueueing(pending, w, call.id, call.to, call.note, call.admin);
    }
  }

  lemma ResumingQueueing(pending: set<nat>, w: World, call: Call, lag: nat)
    requires Queueing(pending, w) && call.Resuming?
    ensures KeepsCovered(pending, w, call, lag)
  {
    QuietStep(pending, w, Carried(w, call, lag).0);
  }

  lemma CarriedQueueing(opening: map<Variant, int>, pending: set<nat>, w: World, call: Call, lag: nat)
    requires GoodWorld(opening, w) && Queueing(pending, w) && Harmless(w.shop, call) && SettlingOk(w, call)
    requires call.Placed? ==> JobAbsent(w.shop, call.id)
    ensures KeepsCovered(pending, w, call, lag)
  {
    match call
    case Rebuilding(_, _, _, _) => RebuildingQueueing(opening, pending, w, call, lag);
    case Resuming(_, _, _) => ResumingQueueing(pending, w, call, lag);
    case Building(_, _, _) => BuildingQueueing(pending, w, call, lag);
    case Placed(id) => QueuedQueueing(pending, w, id, lag);
    case Restoring(_, _) => RestoringQueueing(pending, w, call, lag);
    case Linking(id, i, _) => LinkedQueueing(pending, w, id, i);
    case Writing(_, _, _, _, _, _) => WritingQueueing(opening, pending, w, call, lag);
    case _ =>
  }

  ghost predicate SoundSystem(opening: map<Variant, int>, sys: System) {
    GoodWorld(opening, sys.world) && Queueing(UnfinishedOrders(sys.calls), sys.world) && CallsOk(sys)
  }

  lemma WholeSound(opening: map<Variant, int>, sys: System, step: Step)
    requires SoundSystem(opening, sys)
    ensures SoundSystem(opening, Acted(sys, Whole(step)))
  {
    var w, w' := sys.world, Next(sys.world, step);
    NextGood(opening, w, step);
    NextQueueing(UnfinishedOrders(sys.calls), opening, w, step);
    NextKeepsStripe(w, step);
    NextEvolved(w, step);
    forall n | 0 <= n < |sys.calls| ensures SettlingOk(w', sys.calls[n]) { assert SettlingOk(w, sys.calls[n]); }
    forall n | 0 <= n < |sys.calls| && sys.calls[n].Placed? ensures JobAbsent(w'.shop, sys.calls[n].id) {
      NextJobAbsent(w, step, sys.calls[n].id);
    }
  }

  /** A call that begins has read something and written nothing. */
  lemma BegunSound(opening: map<Variant, int>, sys: System, call: Call)
    requires SoundSystem(opening, sys) && !call.Placed? && SettlingOk(sys.world, call)
    ensures SoundSystem(opening, sys.(calls := sys.calls + [call]))
  {
    var calls := sys.calls + [call];
    assert UnfinishedOrders(sys.calls) <= UnfinishedOrders(calls) by {
      forall id | id in UnfinishedOrders(sys.calls) ensures id in UnfinishedOrders(calls) {
        var n :| 0 <= n < |sys.calls| && Unfinished(sys.calls[n]) && sys.calls[n].id == id;
        assert calls[n] == sys.calls[n];
      }
    }
    QueueingMore(UnfinishedOrders(sys.calls), UnfinishedOrders(calls), sys.world);
  }

  lemma UnfinishedOfUpdate(calls: seq<Call>, n: nat, call: Call)
    requires n < |calls|
    ensures Adding(Dropping(UnfinishedOrders(calls), calls[n]), call) <= UnfinishedOrders(calls[n := call])
  {
    var calls' := calls[n := call];
    forall id | id in Adding(Dropping(UnfinishedOrders(calls), calls[n]), call) ensures id in UnfinishedOrders(calls') {
      if Unfinished(call) && id == call.id {
        assert calls'[n] == call;
      } else {
        var m :| 0 <= m < |calls| && Unfinished(calls[m]) && calls[m].id == id;
        assert calls'[m] == calls[m];
      }
    }
  }

  /** Its next call has its intent too. */
  lemma CarriedSettlingOk(w: World, call: Call, lag: nat, other: Call)
    requires SettlingOk(w, call) && SettlingOk(w, other)
    ensures SettlingOk(Carried(w, call, lag).0, Carried(w, call, lag).1) && SettlingOk(Carried(w, call, lag).0, other)
  {
    CarriedWrites(w, call, lag);
  }

  /** A call carried on leaves the other calls' orders without their job, and a new order without one. */
  lemma CarriedCallsOk(sys: System, n: nat, lag: nat)
    requires CallsOk(sys) && n < |sys.calls|
    requires forall key :: key in sys.world.shop.jobs ==> JobOk(sys.world.shop, key)
    ensures CallsOk(Acted(sys, Proceed(n, lag)))
  {
    var (w', call') := Carried(sys.world, sys.calls[n], lag);
    var calls' := sys.calls[n := call'];
    forall m | 0 <= m < |calls'| ensures SettlingOk(w', calls'[m]) { CarriedSettlingOk(sys.world, sys.calls[n], lag, sys.calls[m]); }
    forall m | 0 <= m < |calls'| && calls'[m].Placed? ensures JobAbsent(w'.shop, calls'[m].id) {
      if m == n {
        NoJobYet(sys.world.shop);
      } else {
        CarriedJobAbsent(sys.world, sys.calls[n], lag, calls'[m].id);
      }
    }
    forall m | 0 <= m < |calls'| && calls'[m].Placed? && m != n ensures call'.Placed? ==> call'.id != calls'[m].id {
      assert JobAbsent(sys.world.shop, sys.calls[m].id);
    }
  }

  lemma NoJobYet(s: Shop)
    requires forall key :: key in s.jobs ==> JobOk(s, key)
    ensures FirstExpiry(|s.orders|) !in s.jobs
  {
    forall key | key in s.jobs ensures key != FirstExpiry(|s.orders|) { assert JobOk(s, key); }
  }

  lemma CarriedJobAbsent(w: World, call: Call, lag: nat, id: nat)
    requires JobAbsent(w.shop, id) && (call.Placed? ==> call.id != id)
    ensures JobAbsent(Carried(w, call, lag).0.shop, id)
  {
  }

  lemma ProceededSound(opening: map<Variant, int>, sys: System, n: nat, lag: nat)
    requires SoundSystem(opening, sys) && n < |sys.calls| && Harmless(sys.world.shop, sys.calls[n])
    ensures SoundSystem(opening, Acted(sys, Proceed(n, lag)))
  {
    var call, pending := sys.calls[n], UnfinishedOrders(sys.calls);
    var (w', call') := Carried(sys.world, call, lag);
    CarriedGoodIff(opening, sys.world, call, lag);
    CarriedCallsOk(sys, n, lag);
    assert SettlingOk(sys.world, call) && (call.Placed? ==> JobAbsent(sys.world.shop, call.id));
    CarriedQueueing(opening, pending, sys.world, call, lag);
    UnfinishedOfUpdate(sys.calls, n, call');
    QueueingMore(Adding(Dropping(pending, call), call'), UnfinishedOrders(sys.calls[n := call']), w');
  }

  lemma ActedSound(opening: map<Variant, int>, sys: System, action: Action)
    requires SoundSystem(opening, sys) && HarmlessAction(sys, action)
    ensures SoundSystem(opening, Acted(sys, action))
  {
    match action
    case Whole(step) => WholeSound(opening, sys, step);
    case LookUp(cart, p, pricesOk) =>
      if cart.Some? && cart.value.lines != [] { BegunSound(opening, sys, LookedUp(sys.world.shop, cart.value, p, pricesOk)); }
    case ReadStatus(id, to, note, admin) =>
      if id < |sys.world.shop.orders| { BegunSound(opening, sys, Writing(id, sys.world.shop.orders[id].status, to, note, admin, false)); }
    case Confirm(id, i) => if Settleable(sys.world, id, i) { BegunSound(opening, sys, Confirming(sys.world.shop, id, i)); }
    case Proceed(n, lag) => if n < |sys.calls| { ProceededSound(opening, sys, n, lag); }
  }

  lemma {:induction false} ActedAllSound(opening: map<Variant, int>, sys: System, actions: seq<Action>)
    requires SoundSystem(opening, sys) && HarmlessRun(sys, actions)
    ensures SoundSystem(opening, ActedAll(sys, actions))
  {
    if actions != [] {
      var front := actions[..|actions| - 1];
      ActedAllSound(opening, sys, front);
      ActedSound(opening, ActedAll(sys, front), actions[|actions| - 1]);
    }
  }

  lemma OpenedSound(opening: map<Variant, int>)
    requires forall v :: v in opening ==> 0 <= opening[v]
    ensures SoundSystem(opening, System(Opened(opening), []))
  {
    OpenedGood(opening);
    assert UnfinishedOrders([]) == {};
    OpenedQueueing(opening);
  }

  /**
   * What that means for one order, and what the queue adds: in every run whose
   * late writes are harmless, however stale the lookups behind creations, stock
   * sums, histories, payment counts, coupon uses and totals hold, and every open
   * order's deadline has its job, or Stripe holds the money, or a call on the
   * order is unfinished: its checkout has yet to queue the job, or a
   * confirmation to link its intent.
   */
  lemma HarmlessRunsAreSound(opening: map<Variant, int>, actions: seq<Action>, id: nat)
    requires forall v :: v in opening ==> 0 <= opening[v]
    requires HarmlessRun(System(Opened(opening), []), actions)
    requires id < |ActedAll(System(Opened(opening), []), actions).world.shop.orders|
    ensures var sys := ActedAll(System(Opened(opening), []), actions);
            var s := sys.world.shop;
            && StockOk(opening, s)
            && ChainOk(s.orders[id]) && PaidRows(s.orders[id].history) == s.completions[id] <= 1
            && RestoreRows(s.orders[id].history)
               <= PaidRows(s.orders[id].history) + RestoredApart(System(Opened(opening), []), actions, id)
            && MoneyOk(s.orders[id].money)
            && (forall code: string :: s.couponUses[code] == Tally(s.orders, RedeemedBy(code)))
            && (JobWaits(s, id) || StripeHolds(sys.world, id) || id in UnfinishedOrders(sys.calls))
  {
    var sys := ActedAll(System(Opened(opening), []), actions);
    OpenedSound(opening);
    ActedAllSound(opening, System(Opened(opening), []), actions);
    RestoresAccounted(System(Opened(opening), []), actions, id);
    assert OrderOk(sys.world.shop.orders[id]) && CompletionOk(sys.world.shop, id);
    forall code: string ensures sys.world.shop.couponUses[code] == Tally(sys.world.shop.orders, RedeemedBy(code)) {
      assert RedemptionOk(sys.world.shop, code);
    }
    if id !in UnfinishedOrders(sys.calls) { assert Covered(sys.world, id); }
  }
}
