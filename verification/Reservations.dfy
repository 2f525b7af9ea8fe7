/**
 * Reservations always end: every open order with a deadline has an expiry job
 * queued no earlier than that deadline, through every kind of step.
 */
module Reservations {
  import opened Common
  import opened Inventory
  import opened Orders
  import opened OrderInvariants
  import opened Payments
  import opened Lifecycle

  predicate HasDeadline(o: Order) {
    Open(o.status) && o.expiresAt.Some?
  }

  /** Orders checkout builds from a cart hold stock only until a deadline, never more than a full window ahead. */
  predicate Timed(o: Order, now: nat) {
    && (o.cartToken.Some? ==> o.expiresAt.Some?)
    && (o.expiresAt.Some? ==> o.expiresAt.value <= now + RESERVATION_TTL_MS)
  }

  /** An order that was never paid and may still be: open, or cancelled. */
  predicate Unsettled(o: Order) {
    Open(o.status) || (o.status == Cancelled && PaidRows(o.history) == 0)
  }

  /** Some queued job for the order fires at its deadline or later. */
  ghost predicate JobWaits(s: Shop, id: nat)
    requires id < |s.orders|
  {
    HasDeadline(s.orders[id]) ==> exists key :: key in s.jobs && key.order == id && s.orders[id].expiresAt.value <= s.jobs[key]
  }

  /** Stripe holds the order's money: the next webhook or reconciliation will settle it. */
  predicate StripeHolds(w: World, id: nat)
    requires id < |w.shop.orders|
  {
    && w.shop.orders[id].paymentIntent.Some?
    && w.shop.orders[id].paymentIntent.value in w.stripe
    && w.stripe[w.shop.orders[id].paymentIntent.value].status == Succeeded
  }

  ghost predicate Covered(w: World, id: nat)
    requires id < |w.shop.orders|
  {
    JobWaits(w.shop, id) || StripeHolds(w, id)
  }

  ghost predicate JobOk(s: Shop, key: JobKey)
    requires key in s.jobs
  {
    && (key.ExtendedExpiry? ==> key.at <= s.jobs[key])
    && (key.FirstExpiry? ==> key.order < |s.orders|)
  }

  /** An unsettled order's intent was minted for it. */
  ghost predicate OwnIntent(w: World, id: nat)
    requires id < |w.shop.orders|
  {
    var o := w.shop.orders[id];
    Unsettled(o) && o.paymentIntent.Some? ==> o.paymentIntent.value in w.stripe && w.stripe[o.paymentIntent.value].order == Some(id)
  }

  /** `pending`: the orders whose checkout has not queued their first job yet. */
  ghost predicate Queueing(pending: set<nat>, w: World) {
    && (forall id: nat :: id < |w.shop.orders| ==> Timed(w.shop.orders[id], w.shop.now) && OwnIntent(w, id))
    && (forall id: nat :: id < |w.shop.orders| && id !in pending ==> Covered(w, id))
    && (forall key :: key in w.shop.jobs ==> JobOk(w.shop, key))
  }

  /** An order keeps its deadline; it either settles or keeps its intent, and it is not reopened. */
  predicate Settled(o: Order, o': Order) {
    && o'.expiresAt == o.expiresAt && o'.cartToken == o.cartToken
    && (Open(o'.status) ==> Open(o.status))
    && (Unsettled(o') ==> Unsettled(o) && o'.paymentIntent == o.paymentIntent)
  }

  /** Rows are kept, and money Stripe holds stays held. */
  ghost predicate StripeKept(w: World, w': World) {
    forall i :: i in w.stripe ==>
                  && i in w'.stripe && w'.stripe[i].order == w.stripe[i].order
                  && (w.stripe[i].status == Succeeded ==> w'.stripe[i] == w.stripe[i])
  }

  predicate OrderKept(w: World, w': World, j: nat)
    requires j < |w'.shop.orders|
  {
    j < |w.shop.orders| && Settled(w.shop.orders[j], w'.shop.orders[j])
  }

  /** No job for another order is lost or brought forward, and no other order is reopened. */
  ghost predicate OthersKept(w: World, w': World, x: nat) {
    && |w.shop.orders| <= |w'.shop.orders| && w.shop.now <= w'.shop.now
    && (forall j: nat :: j < |w'.shop.orders| && j != x ==> OrderKept(w, w', j))
    && (forall key :: key in w.shop.jobs && key.order != x ==> key in w'.shop.jobs && w.shop.jobs[key] <= w'.shop.jobs[key])
    && StripeKept(w, w')
  }

  lemma OwnIntentKept(w: World, w': World, id: nat)
    requires id < |w.shop.orders| && id < |w'.shop.orders| && OwnIntent(w, id)
    requires Settled(w.shop.orders[id], w'.shop.orders[id]) && StripeKept(w, w')
    ensures OwnIntent(w', id)
  {
  }

  lemma CoverKept(w: World, w': World, id: nat)
    requires id < |w.shop.orders| && id < |w'.shop.orders| && Covered(w, id)
    requires Settled(w.shop.orders[id], w'.shop.orders[id]) && StripeKept(w, w')
    requires forall key :: key in w.shop.jobs && key.order == id ==> key in w'.shop.jobs && w.shop.jobs[key] <= w'.shop.jobs[key]
    ensures Covered(w', id)
  {
    if HasDeadline(w'.shop.orders[id]) && !StripeHolds(w, id) {
      var key :| key in w.shop.jobs && key.order == id && w.shop.orders[id].expiresAt.value <= w.shop.jobs[key];
      assert key in w'.shop.jobs && key.order == id && w'.shop.orders[id].expiresAt.value <= w'.shop.jobs[key];
    }
  }

  /** A step that keeps the other orders only has to answer for its own. */
  lemma QueueingStep(pending: set<nat>, pending': set<nat>, w: World, w': World, x: nat)
    requires Queueing(pending, w) && OthersKept(w, w', x) && pending - {x} <= pending'
    requires x < |w'.shop.orders| ==>
               Timed(w'.shop.orders[x], w'.shop.now) && OwnIntent(w', x) && (x !in pending' ==> Covered(w', x))
    requires forall key :: key in w'.shop.jobs ==> JobOk(w'.shop, key)
    ensures Queueing(pending', w')
  {
    forall id: nat | id < |w'.shop.orders| && id != x
      ensures Timed(w'.shop.orders[id], w'.shop.now) && OwnIntent(w', id) && (id !in pending' ==> Covered(w', id))
    {
      assert OrderKept(w, w', id);
      assert Timed(w.shop.orders[id], w.shop.now) && OwnIntent(w, id);
      OwnIntentKept(w, w', id);
      if id !in pending' { CoverKept(w, w', id); }
    }
  }

  lemma JobCovers(w: World, id: nat, key: JobKey)
    requires id < |w.shop.orders| && key in w.shop.jobs && key.order == id
    requires HasDeadline(w.shop.orders[id]) ==> w.shop.orders[id].expiresAt.value <= w.shop.jobs[key]
    ensures Covered(w, id)
  {
  }

  /** A step that leaves the queue alone and reopens nothing keeps it sufficient. */
  lemma QuietStep(pending: set<nat>, w: World, w': World)
    requires Queueing(pending, w) && w'.shop.jobs == w.shop.jobs
    requires |w'.shop.orders| == |w.shop.orders| && w.shop.now <= w'.shop.now
    requires forall j: nat :: j < |w.shop.orders| ==> Settled(w.shop.orders[j], w'.shop.orders[j])
    requires StripeKept(w, w')
    ensures Queueing(pending, w')
  {
    forall key | key in w'.shop.jobs ensures JobOk(w'.shop, key) { assert JobOk(w.shop, key); }
    QueueingStep(pending, pending, w, w', |w'.shop.orders|);
  }

  lemma ConfirmedQueueing(pending: set<nat>, opening: map<Variant, int>, w: World, id: nat, i: string)
    requires GoodWorld(opening, w) && Queueing(pending, w)
    ensures Queueing(pending, w.(shop := Confirmed(w.shop, id, i).shop))
  {
    var w' := w.(shop := Confirmed(w.shop, id, i).shop);
    ConfirmedOutcome(opening, w.shop, id, i);
    if w' != w {
      ConfirmedJobs(w.shop, id, i);
      if Payable(w.shop, id) {
        ConfirmedPays(opening, w.shop, id, i);
      }
      forall key | key in w'.shop.jobs ensures JobOk(w'.shop, key) { assert JobOk(w.shop, key); }
      QueueingStep(pending, pending, w, w', id);
    }
  }

  lemma TransitionedJobs(s: Shop, id: nat, to: Status, note: string)
    ensures Transitioned(s, id, to, note, None).shop.jobs == s.jobs && Transitioned(s, id, to, note, None).shop.now == s.now
    ensures |Transitioned(s, id, to, note, None).shop.orders| == |s.orders|
  {
  }

  lemma PaidFromJobs(s: Shop, id: nat, status: Status, i: string)
    requires id < |s.orders|
    ensures PaidFrom(s, id, status, i).shop.jobs == s.jobs - {FirstExpiry(id)} && PaidFrom(s, id, status, i).shop.now == s.now
  {
    var linked := Linked(s, id, i);
    TransitionedJobs(linked, id, AwaitingPayment, "Payment initiated");
    var waiting := if status == Draft then Transitioned(linked, id, AwaitingPayment, "Payment initiated", None).shop else linked;
    TransitionedJobs(waiting, id, Paid, "Payment confirmed");
  }

  lemma RestoredJobs(s: Shop, id: nat)
    requires id < |s.orders|
    ensures Restored(s, id).shop.jobs == s.jobs && Restored(s, id).shop.now == s.now && |Restored(s, id).shop.orders| == |s.orders|
  {
  }

  lemma ConfirmedJobs(s: Shop, id: nat, i: string)
    ensures var s' := Confirmed(s, id, i).shop; (s'.jobs == s.jobs || s'.jobs == s.jobs - {FirstExpiry(id)}) && s'.now == s.now
  {
    if id < |s.orders| {
      var status := s.orders[id].status;
      var restored := if status == Cancelled then Restored(s, id).shop else s;
      RestoredJobs(s, id);
      PaidFromJobs(restored, id, status, i);
    }
  }

  lemma TransitionedQueueing(pending: set<nat>, w: World, id: nat, to: Status, note: string, admin: Option<string>)
    requires Queueing(pending, w) && (id < |w.shop.orders| ==> Open(w.shop.orders[id].status) || OrderOk(w.shop.orders[id]))
    ensures Queueing(pending, w.(shop := Transitioned(w.shop, id, to, note, admin).shop))
  {
    var w' := w.(shop := Transitioned(w.shop, id, to, note, admin).shop);
    if id < |w.shop.orders| { TransitionedSettles(w.shop, id, to, note, admin); }
    QuietStep(pending, w, w');
  }

  lemma TransitionedSettles(s: Shop, id: nat, to: Status, note: string, admin: Option<string>)
    requires id < |s.orders| && (Open(s.orders[id].status) || OrderOk(s.orders[id]))
    ensures var s' := Transitioned(s, id, to, note, admin).shop;
            && s'.orders == s.orders[id := s'.orders[id]] && s'.jobs == s.jobs && s'.now == s.now
            && Settled(s.orders[id], s'.orders[id])
  {
    HistoryOfAppend(s.orders[id].history, HistoryRow(Some(s.orders[id].status), to, note, admin));
  }

  lemma ExtendedQueueing(pending: set<nat>, w: World, id: nat, lag: nat)
    requires Queueing(pending, w)
    ensures Queueing(pending, w.(shop := Extended(w.shop, id, lag)))
  {
    var w' := w.(shop := Extended(w.shop, id, lag));
    var key := ExtendedExpiry(id, w.shop.now + RESERVATION_TTL_MS);
    forall k | k in w'.shop.jobs ensures JobOk(w'.shop, k) {
      if k in w.shop.jobs { assert JobOk(w.shop, k); }
    }
    if id < |w.shop.orders| {
      assert Timed(w.shop.orders[id], w.shop.now) && OwnIntent(w, id);
      assert JobOk(w'.shop, key);
      JobCovers(w', id, key);
    }
    QueueingStep(pending, pending, w, w', id);
  }

  lemma MintedQueueing(pending: set<nat>, w: World, id: nat, newId: string, testAllowed: bool, g: Gateway, lag: nat)
    requires Queueing(pending, w) && newId !in w.stripe
    ensures Queueing(pending, Minted(w, id, newId, testAllowed, g, lag).0)
  {
    if id < |w.shop.orders| {
      var i := w.shop.orders[id].paymentIntent;
      assert OwnIntent(w, id);
      if i.Some? && i.value in w.stripe && CardOnly(w.stripe[i.value]) {
        var dropped := CardOnlyDropped(w, i.value, g);
        QuietStep(pending, w, dropped);
        if w.shop.orders[id].status == AwaitingPayment { NewIntentQueueing(pending, dropped, id, newId, lag); }
      } else if i.None? || (i.value in w.stripe && w.stripe[i.value].status == Canceled) {
        if w.shop.orders[id].status == AwaitingPayment { NewIntentQueueing(pending, w, id, newId, lag); }
      } else {
        QuietStep(pending, w, Minted(w, id, newId, testAllowed, g, lag).0);
      }
    }
  }

  /** The new intent restarts the reservation, so its job covers the order. */
  lemma NewIntentQueueing(pending: set<nat>, w: World, id: nat, newId: string, lag: nat)
    requires Queueing(pending, w) && newId !in w.stripe && id < |w.shop.orders| && Open(w.shop.orders[id].status)
    ensures Queueing(pending, WithNewIntent(w, id, newId, lag))
  {
    var w' := WithNewIntent(w, id, newId, lag);
    var key := ExtendedExpiry(id, w.shop.now + RESERVATION_TTL_MS);
    forall k | k in w'.shop.jobs ensures JobOk(w'.shop, k) {
      if k in w.shop.jobs { assert JobOk(w.shop, k); }
    }
    assert JobOk(w'.shop, key);
    JobCovers(w', id, key);
    QueueingStep(pending, pending, w, w', id);
  }

  lemma DraftPlacedQueueing(pending: set<nat>, w: World, c: Cart, p: Pricing, pricesOk: bool, lag: nat)
    requires Queueing(pending, w)
    ensures Queueing(pending, w.(shop := DraftPlaced(w.shop, c, p, pricesOk, lag).shop))
  {
    var w' := w.(shop := DraftPlaced(w.shop, c, p, pricesOk, lag).shop);
    if w' != w {
      var id := |w.shop.orders|;
      forall key | key in w.shop.jobs ensures key != FirstExpiry(id) { assert JobOk(w.shop, key); }
      forall key | key in w'.shop.jobs ensures JobOk(w'.shop, key) {
        if key in w.shop.jobs { assert JobOk(w.shop, key); }
      }
      JobCovers(w', id, FirstExpiry(id));
      QueueingStep(pending, pending, w, w', id);
    }
  }

  lemma InitiatedQueueing(pending: set<nat>, w: World, cart: Option<Cart>, p: Pricing, pricesOk: bool, lag: nat)
    requires Queueing(pending, w)
    ensures Queueing(pending, w.(shop := Initiated(w.shop, cart, p, pricesOk, lag).shop))
  {
    if cart.Some? && cart.value.lines != [] {
      var c := cart.value;
      var found := FindOpen(w.shop.orders, c.token);
      if found.None? {
        DraftPlacedQueueing(pending, w, c, p, pricesOk, lag);
      } else if Outdated(w.shop.orders[found.value], c.lines) {
        TransitionedQueueing(pending, w, found.value, Cancelled, REBUILT_NOTE, None);
        var s1 := Transitioned(w.shop, found.value, Cancelled, REBUILT_NOTE, None).shop;
        DraftPlacedQueueing(pending, w.(shop := s1), c, p, pricesOk, lag);
      } else {
        QuietStep(pending, w, w.(shop := Resumed(w.shop, found.value, c.lines, p)));
      }
    }
  }

  lemma PlacedQueueing(pending: set<nat>, w: World, cart: Option<Cart>, pricesOk: bool, quote: Option<Quote>)
    requires Queueing(pending, w)
    ensures Queueing(pending, w.(shop := PlacedFromCart(w.shop, cart, pricesOk, quote).shop))
  {
    var w' := w.(shop := PlacedFromCart(w.shop, cart, pricesOk, quote).shop);
    if w' != w {
      forall key | key in w'.shop.jobs ensures JobOk(w'.shop, key) { assert JobOk(w.shop, key); }
      QueueingStep(pending, pending, w, w', |w.shop.orders|);
    }
  }

  lemma RecordedQueueing(pending: set<nat>, w: World, key: LedgerKey, row: LedgerRow)
    requires Queueing(pending, w)
    ensures Queueing(pending, Recorded(w, key, row).0)
  {
    QuietStep(pending, w, Recorded(w, key, row).0);
  }

  lemma PayingQueueing(pending: set<nat>, opening: map<Variant, int>, w: World, i: string, intent: Intent, crash: bool)
    requires GoodWorld(opening, w) && Queueing(pending, w)
    ensures Queueing(pending, Paying(w, i, intent, crash))
  {
    if intent.order.Some? && intent.order.value < |w.shop.orders| {
      var row := ChargeRow(intent.order.value, i, intent.amount);
      RecordedGood(opening, w, ForIntent(i), row);
      RecordedQueueing(pending, w, ForIntent(i), row);
      ConfirmedQueueing(pending, opening, Recorded(w, ForIntent(i), row).0, intent.order.value, i);
    }
  }

  lemma ReconciledQueueing(pending: set<nat>, opening: map<Variant, int>, w: World, id: nat, up: bool, crash: bool)
    requires GoodWorld(opening, w) && Queueing(pending, w)
    ensures Queueing(pending, Reconciled(w, id, up, crash).0)
  {
    var i := SucceededIntent(w, id, up);
    if i.Some? {
      var row := ChargeRow(id, i.value, w.stripe[i.value].amount);
      RecordedGood(opening, w, ForIntent(i.value), row);
      RecordedQueueing(pending, w, ForIntent(i.value), row);
      ConfirmedQueueing(pending, opening, Recorded(w, ForIntent(i.value), row).0, id, i.value);
    }
  }

  lemma {:induction false} SweptQueueing(pending: set<nat>, opening: map<Variant, int>, w: World, ids: seq<nat>, unread: set<nat>)
    requires GoodWorld(opening, w) && Queueing(pending, w)
    ensures Queueing(pending, Swept(w, ids, unread).0)
  {
    if ids != [] {
      SweptQueueing(pending, opening, w, ids[..|ids| - 1], unread);
      SweptGood(opening, w, ids[..|ids| - 1], unread);
      ReconciledQueueing(pending, opening, Swept(w, ids[..|ids| - 1], unread).0, ids[|ids| - 1], ids[|ids| - 1] !in unread, false);
    }
  }

  // ── The timer ──────────────────────────────────────────────────────────

  predicate Due(w: World, key: JobKey) {
    key in w.shop.jobs && w.shop.jobs[key] <= w.shop.now
  }

  predicate PastDeadline(w: World, id: nat)
    requires id < |w.shop.orders|
  {
    var o := w.shop.orders[id];
    Open(o.status) && (o.expiresAt.None? || o.expiresAt.value <= w.shop.now)
  }

  /** The order has no intent, or Stripe answers that nobody is paying it. */
  predicate NobodyPays(w: World, id: nat, up: bool)
    requires id < |w.shop.orders|
  {
    var i := w.shop.orders[id].paymentIntent;
    || i.None?
    || (up && i.value in w.stripe && w.stripe[i.value].status in {NeedsMethod, NeedsConfirmation, Canceled})
  }

  /** A payment may be on its way: it is being processed, authenticated or captured, or Stripe gives no answer. */
  predicate MayBePaying(w: World, id: nat, up: bool)
    requires id < |w.shop.orders|
  {
    var i := w.shop.orders[id].paymentIntent;
    && i.Some?
    && (!up || i.value !in w.stripe || w.stripe[i.value].status in {InProcessing, NeedsAction, NeedsCapture})
  }

  /**
   * How the timer ends for an open order past its deadline. Paid if Stripe
   * holds the money and says so twice; left as it is, without its job, if the
   * second read fails; given ten more minutes while a payment may be on its
   * way; cancelled if nobody is paying.
   */
  lemma ExpiredOutcome(opening: map<Variant, int>, w: World, key: JobKey, up: bool, again: bool, lag: nat)
    requires GoodWorld(opening, w) && key.order < |w.shop.orders| && PastDeadline(w, key.order) && OwnIntent(w, key.order)
    ensures var w', id := Expired(w, key, up, again, lag), key.order;
            && w'.shop.orders == w.shop.orders[id := w'.shop.orders[id]]
            && w'.stripe == w.stripe && w'.shop.now == w.shop.now
            && var o' := w'.shop.orders[id];
               if NobodyPays(w, id, up) then o'.status == Cancelled && w'.shop.jobs == w.shop.jobs
               else if MayBePaying(w, id, up) then
                 && o' == w.shop.orders[id].(expiresAt := Some(w.shop.now + 600_000))
                 && w'.shop.jobs == w.shop.jobs[key := w.shop.now + lag + 600_000]
               else
                 && up && StripeHolds(w, id)
                 && (if again then o'.status == Paid && (w'.shop.jobs == w.shop.jobs || w'.shop.jobs == w.shop.jobs - {FirstExpiry(id)})
                     else w' == w)
  {
    if NobodyPays(w, key.order, up) {
      NobodyPaysOutcome(w, key, up, again, lag);
    } else if MayBePaying(w, key.order, up) {
      MayBePayingOutcome(w, key, up, again, lag);
    } else {
      assert Expired(w, key, up, again, lag) == Reconciled(w, key.order, again, false).0;
      if again { HeldOutcome(opening, w, key.order, again); }
    }
  }

  lemma NobodyPaysOutcome(w: World, key: JobKey, up: bool, again: bool, lag: nat)
    requires key.order < |w.shop.orders| && Open(w.shop.orders[key.order].status) && NobodyPays(w, key.order, up)
    ensures var w', id := Expired(w, key, up, again, lag), key.order;
            && w'.shop.orders == w.shop.orders[id := w'.shop.orders[id]] && w'.shop.orders[id].status == Cancelled
            && w'.stripe == w.stripe && w'.shop.now == w.shop.now && w'.shop.jobs == w.shop.jobs
  {
  }

  lemma MayBePayingOutcome(w: World, key: JobKey, up: bool, again: bool, lag: nat)
    requires key.order < |w.shop.orders| && MayBePaying(w, key.order, up)
    ensures var w', id := Expired(w, key, up, again, lag), key.order;
            && w'.shop.orders == w.shop.orders[id := w.shop.orders[id].(expiresAt := Some(w.shop.now + 600_000))]
            && w'.stripe == w.stripe && w'.shop.now == w.shop.now
            && w'.shop.jobs == w.shop.jobs[key := w.shop.now + lag + 600_000]
  {
  }

  /** Money Stripe holds, and says so a second time, pays the order. */
  lemma HeldOutcome(opening: map<Variant, int>, w: World, id: nat, up: bool)
    requires GoodWorld(opening, w) && id < |w.shop.orders| && PastDeadline(w, id) && OwnIntent(w, id) && StripeHolds(w, id) && up
    ensures var w' := Reconciled(w, id, up, false).0;
            && w'.shop.orders == w.shop.orders[id := w'.shop.orders[id]]
            && w'.stripe == w.stripe && w'.shop.now == w.shop.now
            && w'.shop.orders[id].status == Paid
            && w'.shop.orders[id] == w.shop.orders[id].(status := Paid, history := w'.shop.orders[id].history)
            && (w'.shop.jobs == w.shop.jobs || w'.shop.jobs == w.shop.jobs - {FirstExpiry(id)})
  {
    var i := w.shop.orders[id].paymentIntent.value;
    assert SucceededIntent(w, id, up) == Some(i);
    RecordedGood(opening, w, ForIntent(i), ChargeRow(id, i, w.stripe[i].amount));
    ConfirmedPays(opening, w.shop, id, i);
    ConfirmedJobs(w.shop, id, i);
  }

  function Dropped(w: World, key: JobKey): World {
    w.(shop := w.shop.(jobs := w.shop.jobs - {key}))
  }

  /** A job that finds its order closed, or the deadline moved on, is not the one the order relies on. */
  lemma DroppedQueueing(pending: set<nat>, w: World, key: JobKey)
    requires Queueing(pending, w) && Due(w, key) && (key.order < |w.shop.orders| ==> !PastDeadline(w, key.order))
    ensures Queueing(pending, Dropped(w, key))
  {
    var id, w' := key.order, Dropped(w, key);
    if id < |w.shop.orders| {
      assert Timed(w.shop.orders[id], w.shop.now) && OwnIntent(w, id);
      if id !in pending && !StripeHolds(w, id) && HasDeadline(w.shop.orders[id]) {
        assert Covered(w, id);
        var other :| other in w.shop.jobs && other.order == id && w.shop.orders[id].expiresAt.value <= w.shop.jobs[other];
        JobCovers(w', id, other);
      }
    }
    forall k | k in w'.shop.jobs ensures JobOk(w'.shop, k) { assert JobOk(w.shop, k); }
    QueueingStep(pending, pending, w, w', id);
  }

  lemma ExpiredQueueing(pending: set<nat>, opening: map<Variant, int>, w: World, key: JobKey, up: bool, again: bool, lag: nat)
    requires GoodWorld(opening, w) && Queueing(pending, w) && Due(w, key) && key.order < |w.shop.orders| && PastDeadline(w, key.order)
    ensures Queueing(pending, Expired(Dropped(w, key), key, up, again, lag))
  {
    var w' := Expired(Dropped(w, key), key, up, again, lag);
    assert Timed(w.shop.orders[key.order], w.shop.now) && OwnIntent(w, key.order);
    RequeuedGood(opening, w.shop, Dropped(w, key).shop);
    ExpiredKeepsOthers(opening, w, key, up, again, lag);
    ExpiredCovers(opening, Dropped(w, key), key, up, again, lag);
    forall k | k in w'.shop.jobs ensures JobOk(w'.shop, k) { assert JobOk(w.shop, k); }
    QueueingStep(pending, pending, w, w', key.order);
  }

  /** However it ends, the order itself keeps a deadline in reach, its own intent, and something to end it. */
  lemma ExpiredCovers(opening: map<Variant, int>, w: World, key: JobKey, up: bool, again: bool, lag: nat)
    requires GoodWorld(opening, w) && key.order < |w.shop.orders| && PastDeadline(w, key.order)
    requires OwnIntent(w, key.order) && Timed(w.shop.orders[key.order], w.shop.now)
    ensures var w', id := Expired(w, key, up, again, lag), key.order;
            id < |w'.shop.orders| && Timed(w'.shop.orders[id], w'.shop.now) && OwnIntent(w', id) && Covered(w', id)
  {
    var id, w' := key.order, Expired(w, key, up, again, lag);
    match IntentStateOf(w, id, up, again).1
    case MoneyHeld => if again { HeldOutcome(opening, w, id, again); }
    case InFlight => JobCovers(w', id, key);
    case NoMoney =>
  }

  /** The firing of one order's job leaves the others' jobs, deadlines and intents alone, and queues nothing new. */
  lemma ExpiredKeepsOthers(opening: map<Variant, int>, w: World, key: JobKey, up: bool, again: bool, lag: nat)
    requires GoodWorld(opening, w) && key in w.shop.jobs && key.order < |w.shop.orders| && PastDeadline(w, key.order) && OwnIntent(w, key.order)
    ensures var w' := Expired(Dropped(w, key), key, up, again, lag);
            && |w'.shop.orders| == |w.shop.orders| && w'.shop.now == w.shop.now
            && OthersKept(w, w', key.order)
            && (forall k :: k in w'.shop.jobs ==> k in w.shop.jobs && (k != key ==> w'.shop.jobs[k] == w.shop.jobs[k]))
            && (key in w'.shop.jobs ==> w.shop.now <= w'.shop.jobs[key])
  {
    var done := Dropped(w, key);
    RequeuedGood(opening, w.shop, done.shop);
    ExpiredOutcome(opening, done, key, up, again, lag);
  }

  lemma FiredQueueing(pending: set<nat>, opening: map<Variant, int>, w: World, key: JobKey, up: bool, again: bool, lag: nat)
    requires GoodWorld(opening, w) && Queueing(pending, w) && Due(w, key)
    ensures Queueing(pending, Fired(w, key, up, again, lag))
  {
    if key.order < |w.shop.orders| && PastDeadline(w, key.order) {
      ExpiredQueueing(pending, opening, w, key, up, again, lag);
    } else {
      DroppedQueueing(pending, w, key);
    }
  }

  /**
   * A due job cancels its order exactly when it is open, past its deadline, and
   * has no intent or one that Stripe says nobody is paying; it puts itself back
   * for ten minutes exactly when, past the deadline, the intent is being
   * processed, authenticated or captured, or Stripe gives no answer.
   */
  lemma TimerCancelsIff(pending: set<nat>, opening: map<Variant, int>, w: World, key: JobKey, up: bool, again: bool, lag: nat)
    requires GoodWorld(opening, w) && Queueing(pending, w) && Due(w, key) && key.order < |w.shop.orders|
    requires w.shop.orders[key.order].status != Cancelled
    ensures var w', id := Fired(w, key, up, again, lag), key.order;
            var o, due := w.shop.orders[id], w.shop.orders[id].expiresAt.None? || w.shop.orders[id].expiresAt.value <= w.shop.now;
            && |w'.shop.orders| == |w.shop.orders|
            && (w'.shop.orders[id].status == Cancelled <==> o.status in {Draft, AwaitingPayment} && due && NobodyPays(w, id, up))
            && (key in w'.shop.jobs <==> o.status in {Draft, AwaitingPayment} && due && MayBePaying(w, id, up))
            && (key in w'.shop.jobs ==>
                  && w'.shop.jobs == w.shop.jobs[key := w.shop.now + lag + 600_000]
                  && w'.shop.orders[id] == o.(expiresAt := Some(w.shop.now + 600_000)))
  {
    var done := Dropped(w, key);
    assert OwnIntent(w, key.order);
    if PastDeadline(w, key.order) {
      RequeuedGood(opening, w.shop, done.shop);
      ExpiredOutcome(opening, done, key, up, again, lag);
    }
  }

  /** No other job of this order reaches its deadline. */
  ghost predicate LastJob(s: Shop, key: JobKey)
    requires key.order < |s.orders| && HasDeadline(s.orders[key.order])
  {
    forall other :: other in s.jobs && other.order == key.order && other != key ==> s.jobs[other] < s.orders[key.order].expiresAt.value
  }

  /**
   * A firing keeps its order's deadline enforced, except exactly when the order
   * is past it, Stripe holds the money, the read that says so succeeds and the
   * settlement's own read fails, and no other job was left.
   */
  lemma FiringKeepsJobIff(pending: set<nat>, opening: map<Variant, int>, w: World, key: JobKey, up: bool, again: bool, lag: nat)
    requires GoodWorld(opening, w) && Queueing(pending, w) && Due(w, key) && key.order < |w.shop.orders|
    requires JobWaits(w.shop, key.order)
    ensures var w' := Fired(w, key, up, again, lag);
            && key.order < |w'.shop.orders|
            && (JobWaits(w'.shop, key.order) <==>
                !(&& PastDeadline(w, key.order) && HasDeadline(w.shop.orders[key.order])
                  && StripeHolds(w, key.order) && up && !again && LastJob(w.shop, key)))
  {
    var id, done, w' := key.order, Dropped(w, key), Fired(w, key, up, again, lag);
    assert OwnIntent(w, id);
    RequeuedGood(opening, w.shop, done.shop);
    if PastDeadline(w, id) {
      ExpiredOutcome(opening, done, key, up, again, lag);
      if HasDeadline(w.shop.orders[id]) && w' == done && !LastJob(w.shop, key) {
        var other :| other in w.shop.jobs && other.order == id && other != key && w.shop.orders[id].expiresAt.value <= w.shop.jobs[other];
        assert other in w'.shop.jobs;
      }
      if MayBePaying(done, id, up) { assert key in w'.shop.jobs; }
    } else if HasDeadline(w.shop.orders[id]) {
      var other :| other in w.shop.jobs && other.order == id && w.shop.orders[id].expiresAt.value <= w.shop.jobs[other];
      assert other in w'.shop.jobs;
    }
  }

  // ── Over whole runs ────────────────────────────────────────────────────

  lemma NextQueueing(pending: set<nat>, opening: map<Variant, int>, w: World, step: Step)
    requires GoodWorld(opening, w) && Queueing(pending, w)
    ensures Queueing(pending, Next(w, step))
  {
    match step
    case InitiateStep(cart, p, pricesOk, lag) => InitiatedQueueing(pending, w, cart, p, pricesOk, lag);
    case CreateFromCartStep(cart, pricesOk, quote) => PlacedQueueing(pending, w, cart, pricesOk, quote);
    case ShippingStep(id, quote) => ShippingQueueing(pending, w, id, quote);
    case ReadyStep(id, testAllowed, freeShipping, pickupOk) => ReadyQueueing(pending, w, id, testAllowed, freeShipping, pickupOk);
    case MintStep(id, newId, testAllowed, g, lag) =>
      if newId !in w.stripe { MintedQueueing(pending, w, id, newId, testAllowed, g, lag); }
    case AdminStep(id, to, note, admin) => AdminQueueing(pending, opening, w, id, to, note, admin);
    case ReturnClosedStep(id) => ReturnQueueing(pending, opening, w, id);
    case WebhookStep(i, crash) => if i in w.stripe { PayingQueueing(pending, opening, w, i, w.stripe[i], crash); }
    case ReconcileStep(id, up, crash) => ReconciledQueueing(pending, opening, w, id, up, crash);
    case SweepStep(ids, unread) => SweptQueueing(pending, opening, w, ids, unread);
    case TimerStep(key, up, again, lag) => if Due(w, key) { FiredQueueing(pending, opening, w, key, up, again, lag); }
    case FailedStep(event, i, lag) => FailedQueueing(pending, w, event, i, lag);
    case RefundStep(event, charge, id, amount, crash) => RefundQueueing(pending, opening, w, event, charge, id, amount, crash);
    case AdjustStep(v, delta) => WarehouseQueueing(pending, w, step);
    case RestockStep(v, q, o) => WarehouseQueueing(pending, w, step);
    case StripeStep(i, status) => WarehouseQueueing(pending, w, step);
    case TickStep(ms) => WarehouseQueueing(pending, w, step);
  }

  lemma ShippingQueueing(pending: set<nat>, w: World, id: nat, quote: Option<Quote>)
    requires Queueing(pending, w)
    ensures Queueing(pending, OnShop(w, ShippingUpdated(w.shop, id, quote)))
  {
    QuietStep(pending, w, OnShop(w, ShippingUpdated(w.shop, id, quote)));
  }

  lemma ReadyQueueing(pending: set<nat>, w: World, id: nat, testAllowed: bool, freeShipping: bool, pickupOk: bool)
    requires Queueing(pending, w)
    ensures Queueing(pending, OnShop(w, MadeReady(w.shop, id, testAllowed, freeShipping, pickupOk)))
  {
    QuietStep(pending, w, OnShop(w, MadeReady(w.shop, id, testAllowed, freeShipping, pickupOk)));
  }

  lemma WarehouseQueueing(pending: set<nat>, w: World, step: Step)
    requires Queueing(pending, w)
    requires step.AdjustStep? || step.RestockStep? || step.StripeStep? || step.TickStep?
    ensures Queueing(pending, Next(w, step))
  {
    QuietStep(pending, w, Next(w, step));
  }

  lemma FailedQueueing(pending: set<nat>, w: World, event: string, i: string, lag: nat)
    requires Queueing(pending, w)
    ensures Queueing(pending, Next(w, FailedStep(event, i, lag)))
  {
    if i in w.stripe && w.stripe[i].order.Some? {
      var id := w.stripe[i].order.value;
      var row := LedgerRow(id, i, Charge, false, w.stripe[i].amount);
      RecordedQueueing(pending, w, ForEvent(event), row);
      ExtendedQueueing(pending, Recorded(w, ForEvent(event), row).0, id, lag);
    }
  }

  lemma AdminQueueing(pending: set<nat>, opening: map<Variant, int>, w: World, id: nat, to: Status, note: string, admin: string)
    requires GoodWorld(opening, w) && Queueing(pending, w)
    ensures Queueing(pending, Next(w, AdminStep(id, to, note, admin)))
  {
    if id < |w.shop.orders| {
      assert OrderOk(w.shop.orders[id]);
      if to == Paid {
        ConfirmedQueueing(pending, opening, w, id, ManualIntent(w.shop.orders[id], note));
      } else {
        TransitionedQueueing(pending, w, id, to, note, Some(admin));
      }
    }
  }

  lemma RefundQueueing(pending: set<nat>, opening: map<Variant, int>, w: World, event: string, charge: string, id: nat, amount: int, crash: bool)
    requires GoodWorld(opening, w) && Queueing(pending, w)
    ensures Queueing(pending, Next(w, RefundStep(event, charge, id, amount, crash)))
  {
    if id < |w.shop.orders| {
      assert OrderOk(w.shop.orders[id]);
      var row := LedgerRow(id, charge, Refund, true, amount);
      RecordedQueueing(pending, w, ForEvent(event), row);
      TransitionedQueueing(pending, Recorded(w, ForEvent(event), row).0, id, Refunded, "Refunded via Stripe", None);
    }
  }

  lemma ReturnQueueing(pending: set<nat>, opening: map<Variant, int>, w: World, id: nat)
    requires GoodWorld(opening, w) && Queueing(pending, w)
    ensures Queueing(pending, Next(w, ReturnClosedStep(id)))
  {
    if id < |w.shop.orders| { assert OrderOk(w.shop.orders[id]); }
    TransitionedQueueing(pending, w, id, Refunded, "Fully refunded via returns", None);
  }

  lemma {:induction false} RunQueueing(pending: set<nat>, opening: map<Variant, int>, w: World, steps: seq<Step>)
    requires GoodWorld(opening, w) && Queueing(pending, w)
    ensures Queueing(pending, Run(w, steps))
  {
    if steps != [] {
      var front := steps[..|steps| - 1];
      RunQueueing(pending, opening, w, front);
      RunGood(opening, w, front);
      NextQueueing(pending, opening, Run(w, front), steps[|steps| - 1]);
    }
  }

  lemma OpenedQueueing(opening: map<Variant, int>)
    ensures Queueing({}, Opened(opening))
  {
  }

  /**
   * In every reachable state every open order built from a cart has a deadline
   * within one window, and every deadline a queued job that fires no earlier,
   * or Stripe holds the order's money.
   */
  lemma DeadlinesCoveredInEveryRun(opening: map<Variant, int>, steps: seq<Step>, id: nat)
    requires forall v :: v in opening ==> 0 <= opening[v]
    requires id < |Run(Opened(opening), steps).shop.orders| && Open(Run(Opened(opening), steps).shop.orders[id].status)
    ensures var w := Run(Opened(opening), steps);
            var deadline := w.shop.orders[id].expiresAt;
            && (w.shop.orders[id].cartToken.Some? ==> deadline.Some?)
            && (deadline.Some? ==>
                  && deadline.value <= w.shop.now + RESERVATION_TTL_MS
                  && (|| StripeHolds(w, id)
                      || exists key :: key in w.shop.jobs && key.order == id && deadline.value <= w.shop.jobs[key]))
  {
    var w := Run(Opened(opening), steps);
    OpenedGood(opening);
    OpenedQueueing(opening);
    RunQueueing({}, opening, Opened(opening), steps);
    assert Timed(w.shop.orders[id], w.shop.now) && Covered(w, id);
  }
}
