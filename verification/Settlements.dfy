/**
 * What each payment call writes: the intent it hands out, the ledger row it
 * adds, the order it pays, postpones or refunds, and the units a payment moves.
 */
module Settlements {
  import opened Common
  import opened Inventory
  import opened Orders
  import opened OrderInvariants
  import opened Payments
  import opened Lifecycle
  import opened Convergence
  import opened Transitions

  // ── Confirmation ───────────────────────────────────────────────────────

  /** The stock of a restored order is taken from the shelves first; then payment moves it to committed. */
  lemma ConfirmedBook(opening: map<Variant, int>, s: Shop, id: nat, intent: string)
    requires Good(opening, s) && Payable(s, id)
    ensures var o := s.orders[id];
            Confirmed(s, id, intent).shop.book ==
            MovedLines(if o.status == Cancelled then MovedLines(s.book, OrderPlaced, o.lines, id) else s.book, OrderPaid, o.lines, id)
  {
    var o, status := s.orders[id], s.orders[id].status;
    if status == Cancelled {
      ReservedLinesIff(s.book, o.lines, id);
      PaidFromBook(Restored(s, id).shop, id, status, intent);
    } else {
      PaidFromBook(s, id, status, intent);
    }
  }

  lemma WaitingBook(s: Shop, id: nat)
    requires id < |s.orders| && s.orders[id].status == Draft
    ensures var s' := Transitioned(s, id, AwaitingPayment, "Payment initiated", None).shop;
            && s' == s.(orders := s'.orders) && |s'.orders| == |s.orders|
            && s'.orders[id].lines == s.orders[id].lines && s'.orders[id].status == AwaitingPayment
  {
  }

  lemma PaidBook(s: Shop, id: nat)
    requires id < |s.orders| && s.orders[id].status == AwaitingPayment
    ensures var s' := Transitioned(s, id, Paid, "Payment confirmed", None).shop;
            s'.book == MovedLines(s.book, OrderPaid, s.orders[id].lines, id) && s'.jobs == s.jobs && s'.now == s.now
  {
  }

  lemma PaidFromBook(s: Shop, id: nat, status: Status, intent: string)
    requires id < |s.orders| && Open(s.orders[id].status) && (status == Draft <==> s.orders[id].status == Draft)
    ensures PaidFrom(s, id, status, intent).shop.book == MovedLines(s.book, OrderPaid, s.orders[id].lines, id)
    ensures PaidFrom(s, id, status, intent).shop.jobs == s.jobs - {FirstExpiry(id)}
    ensures PaidFrom(s, id, status, intent).shop.now == s.now
  {
    var linked := Linked(s, id, intent);
    if status == Draft { WaitingBook(linked, id); }
    PaidBook(if status == Draft then Transitioned(linked, id, AwaitingPayment, "Payment initiated", None).shop else linked, id);
  }

  /** Payment takes an order's units from reserved, or from the shelves if its reservation had timed out, into committed. */
  lemma ConfirmedMoves(opening: map<Variant, int>, s: Shop, id: nat, intent: string, v: Variant)
    requires Good(opening, s) && Payable(s, id) && v in s.book.rows
    ensures var b, b', d := s.book, Confirmed(s, id, intent).shop.book, Demand(s.orders[id].lines, v);
            var late := s.orders[id].status == Cancelled;
            && v in b'.rows
            && b'.rows[v].available == b.rows[v].available + Shift(d, false, late)
            && b'.rows[v].reserved == b.rows[v].reserved + Shift(d, false, !late)
            && b'.rows[v].committed == b.rows[v].committed + d
            && NetShipped(b'.log, v) == NetShipped(b.log, v)
  {
    var b, o := s.book, s.orders[id];
    var b1 := if o.status == Cancelled then MovedLines(b, OrderPlaced, o.lines, id) else b;
    ConfirmedBook(opening, s, id, intent);
    MovedLinesRow(b, OrderPlaced, o.lines, id, v);
    MovedLinesShipped(b, OrderPlaced, o.lines, id, v);
    MovedLinesRow(b1, OrderPaid, o.lines, id, v);
    MovedLinesShipped(b1, OrderPaid, o.lines, id, v);
    assert RowOk(opening, s, v);
    TalliesOfUpdate(s.orders, id, o, v);
  }

  /** And it drops the order's first expiry job, leaving the rest of the queue. */
  lemma ConfirmedQueue(opening: map<Variant, int>, s: Shop, id: nat, intent: string)
    requires Good(opening, s) && Payable(s, id)
    ensures Confirmed(s, id, intent).shop.jobs == s.jobs - {FirstExpiry(id)} && Confirmed(s, id, intent).shop.now == s.now
  {
    var status := s.orders[id].status;
    PaidFromBook(if status == Cancelled then Restored(s, id).shop else s, id, status, intent);
  }

  // ── Reservations restarted ─────────────────────────────────────────────

  /** Fifteen minutes from now for an open order, and a job that fires a second after that. */
  lemma ExtendedOutcome(s: Shop, id: nat, lag: nat)
    ensures var s', key := Extended(s, id, lag), ExtendedExpiry(id, s.now + 900_000);
            && s' == s.(orders := s'.orders, jobs := s'.jobs)
            && s'.jobs == (if key in s.jobs then s.jobs else s.jobs[key := s.now + lag + 901_000])
            && s'.orders == if id < |s.orders| && s.orders[id].status in {Draft, AwaitingPayment}
                            then s.orders[id := s.orders[id].(expiresAt := Some(s.now + 900_000))] else s.orders
  {
  }

  /** A failed attempt is logged once per event, under the intent, and restarts the reservation. */
  lemma FailedOutcome(w: World, event: string, i: string, intent: Intent, lag: nat)
    ensures PaymentFailed(w, event, i, intent, lag) ==
            if intent.order.None? || ForEvent(event) in w.ledger then w
            else
              var id := intent.order.value;
              w.(ledger := w.ledger[ForEvent(event) := LedgerRow(id, i, Charge, false, intent.amount)], shop := Extended(w.shop, id, lag))
  {
  }

  // ── Intents ────────────────────────────────────────────────────────────

  /** The payment form needs a new intent: there is none, it is cancelled, or it takes cards only and nobody is paying it. */
  predicate StartsAfresh(w: World, id: nat)
    requires id < |w.shop.orders|
  {
    var i := w.shop.orders[id].paymentIntent;
    i.Some? ==>
      && i.value in w.stripe
      && (w.stripe[i.value].status == Canceled
          || (!w.stripe[i.value].automatic && w.stripe[i.value].status in {NeedsMethod, NeedsConfirmation}))
  }

  /** The card-only intent about to be replaced is cancelled at Stripe when that call goes through. */
  function WithoutCardOnly(w: World, id: nat, cancellable: bool): map<string, Intent>
    requires id < |w.shop.orders|
  {
    var i := w.shop.orders[id].paymentIntent;
    if i.Some? && i.value in w.stripe && w.stripe[i.value].status in {NeedsMethod, NeedsConfirmation} && cancellable
    then w.stripe[i.value := w.stripe[i.value].(status := Canceled)] else w.stripe
  }

  /**
   * How opening the payment form ends: refused for a missing, blocked or not
   * payable order, or an intent that cannot be read; a new intent for the
   * order's total with the reservation restarted; the present one as it is when
   * its amount is right, re-priced while nobody is paying it, and refused once
   * its money may be moving.
   */
  lemma MintedOutcome(w: World, id: nat, newId: string, testAllowed: bool, g: Gateway, lag: nat)
    requires newId !in w.stripe
    ensures var (w', r) := Minted(w, id, newId, testAllowed, g, lag);
            if id >= |w.shop.orders| then w' == w && r == Err(NoSuchOrder)
            else if !testAllowed then w' == w && r == Err(TestOrderBlocked)
            else if w.shop.orders[id].status != AwaitingPayment then w' == w && r == Err(PaymentNotDue)
            else
              var o := w.shop.orders[id];
              if o.paymentIntent.Some? && (!g.readable || o.paymentIntent.value !in w.stripe) then w' == w && r == Err(StripeUnreadable)
              else if StartsAfresh(w, id) then
                var stripe := WithoutCardOnly(w, id, g.cancellable);
                if g.writable then
                  && r == Ok(newId)
                  && w' == w.(stripe := stripe[newId := Intent(NeedsMethod, o.money.total, true, Some(id))],
                              shop := Extended(w.shop.(orders := w.shop.orders[id := o.(paymentIntent := Some(newId))]), id, lag))
                else w' == w.(stripe := stripe) && r == Err(StripeRefused)
              else
                var i := o.paymentIntent.value;
                if w.stripe[i].amount == o.money.total then w' == w && r == Ok(i)
                else if w.stripe[i].status !in {NeedsMethod, NeedsConfirmation, NeedsAction} then w' == w && r == Err(PaymentInProgress)
                else if !g.writable then w' == w && r == Err(StripeRefused)
                else w' == w.(stripe := w.stripe[i := w.stripe[i].(amount := o.money.total)]) && r == Ok(i)
  {
  }

  // ── Money received ─────────────────────────────────────────────────────

  /** The ledger with the row of a charge, unless the intent already has one. */
  function Charged(w: World, id: nat, i: string, amount: int): map<LedgerKey, LedgerRow> {
    if ForIntent(i) in w.ledger then w.ledger else w.ledger[ForIntent(i) := LedgerRow(id, i, Charge, true, amount)]
  }

  /** A payment-succeeded webhook logs the charge once, and confirms unless the charge was known and the order paid, or the process dies. */
  lemma PayingOutcome(w: World, i: string, intent: Intent, crash: bool)
    ensures Paying(w, i, intent, crash) ==
            if intent.order.None? || intent.order.value >= |w.shop.orders| then w
            else
              var id := intent.order.value;
              w.(ledger := Charged(w, id, i, intent.amount),
                 shop := if crash || (ForIntent(i) in w.ledger && w.shop.orders[id].status == Paid) then w.shop
                         else Confirmed(w.shop, id, i).shop)
  {
  }

  /** Stripe, when it can be read, holds the money of the order's own intent, and the order is still to be paid. */
  predicate Reconciles(w: World, id: nat, up: bool) {
    && id < |w.shop.orders| && up
    && w.shop.orders[id].status in {Draft, AwaitingPayment, Cancelled}
    && w.shop.orders[id].paymentIntent.Some?
    && var i := w.shop.orders[id].paymentIntent.value;
       && i in w.stripe && w.stripe[i].status == Succeeded
       && (w.stripe[i].order.None? || w.stripe[i].order.value == id)
  }

  lemma SucceededIntentIff(w: World, id: nat, up: bool)
    ensures SucceededIntent(w, id, up) == if Reconciles(w, id, up) then w.shop.orders[id].paymentIntent else None
  {
  }

  /**
   * A reconciliation logs and confirms exactly the money Stripe holds for an
   * order still to be paid. It reports the status it leaves behind, and itself
   * as the one that settled exactly when the charge was new and the order
   * ended paid.
   */
  lemma ReconciledOutcome(opening: map<Variant, int>, w: World, id: nat, up: bool)
    requires GoodWorld(opening, w)
    ensures var (w', r) := Reconciled(w, id, up, false);
            if id >= |w.shop.orders| then w' == w && r.None?
            else if !Reconciles(w, id, up) then w' == w && r == Some(Reconciliation(w.shop.orders[id].status, false))
            else
              var i := w.shop.orders[id].paymentIntent.value;
              && w' == w.(ledger := Charged(w, id, i, w.stripe[i].amount), shop := Confirmed(w.shop, id, i).shop)
              && id < |w'.shop.orders|
              && r == Some(Reconciliation(w'.shop.orders[id].status, ForIntent(i) !in w.ledger && w'.shop.orders[id].status == Paid))
  {
    SucceededIntentIff(w, id, up);
    if Reconciles(w, id, up) {
      var i := w.shop.orders[id].paymentIntent.value;
      ConfirmedOutcome(opening, w.shop, id, i);
      if Payable(w.shop, id) { ConfirmedPays(opening, w.shop, id, i); }
    }
  }

  /** A process that dies between the two writes leaves the charge logged and the order as it was. */
  lemma InterruptedOutcome(w: World, id: nat, up: bool)
    ensures Reconciled(w, id, up, true).0 ==
            if !Reconciles(w, id, up) then w
            else var i := w.shop.orders[id].paymentIntent.value; w.(ledger := Charged(w, id, i, w.stripe[i].amount))
  {
    SucceededIntentIff(w, id, up);
  }

  // ── The sweep ──────────────────────────────────────────────────────────

  /** Stripe holds the money of an open order, and nothing has been written yet. */
  predicate Waiting(w: World, id: nat) {
    && Reconciles(w, id, true) && Open(w.shop.orders[id].status)
    && ForIntent(w.shop.orders[id].paymentIntent.value) !in w.ledger
    && w.stripe[w.shop.orders[id].paymentIntent.value].order == Some(id)
  }

  /** What one settlement leaves of another order: the order itself, and its money waiting. */
  predicate Keeps(w: World, w': World, j: nat) {
    && |w'.shop.orders| == |w.shop.orders|
    && (j < |w.shop.orders| ==> w'.shop.orders[j] == w.shop.orders[j])
    && (Waiting(w, j) ==> Waiting(w', j))
  }

  lemma ReconciledWaiting(opening: map<Variant, int>, w: World, id: nat)
    requires GoodWorld(opening, w) && Waiting(w, id)
    ensures var (w', r) := Reconciled(w, id, true, false);
            && GoodWorld(opening, w') && r == Some(Reconciliation(Paid, true))
            && |w'.shop.orders| == |w.shop.orders| && w'.shop.orders[id].status == Paid
  {
    ReconciledGood(opening, w, id, true, false);
    ReconciledOutcome(opening, w, id, true);
    ConfirmedPays(opening, w.shop, id, w.shop.orders[id].paymentIntent.value);
  }

  lemma ReconciledKeeps(opening: map<Variant, int>, w: World, id: nat, j: nat)
    requires GoodWorld(opening, w) && Waiting(w, id) && j != id
    ensures Keeps(w, Reconciled(w, id, true, false).0, j)
  {
    ReconciledWaiting(opening, w, id);
    ReconciledOutcome(opening, w, id, true);
    if j < |w.shop.orders| { ConfirmedFrame(opening, w.shop, id, w.shop.orders[id].paymentIntent.value, j); }
  }

  /** Orders in a list, each named once, all with their money waiting and their reads succeeding. */
  ghost predicate AllWaiting(w: World, ids: seq<nat>, unread: set<nat>) {
    && (forall n :: 0 <= n < |ids| ==> Waiting(w, ids[n]) && ids[n] !in unread)
    && (forall m, n :: 0 <= m < n < |ids| ==> ids[m] != ids[n])
  }

  lemma SweepUnfolds(w: World, front: seq<nat>, id: nat, unread: set<nat>)
    requires id !in unread
    ensures var (w1, n) := Swept(w, front, unread);
            var (w2, r) := Reconciled(w1, id, true, false);
            Swept(w, front + [id], unread) == (w2, n + if r.Some? && r.value.reconciled then 1 else 0)
  {
    assert (front + [id])[..|front|] == front;
  }

  lemma {:induction false} SweepKeeps(opening: map<Variant, int>, w: World, ids: seq<nat>, unread: set<nat>, j: nat)
    requires GoodWorld(opening, w) && AllWaiting(w, ids, unread) && j !in ids
    ensures GoodWorld(opening, Swept(w, ids, unread).0) && Keeps(w, Swept(w, ids, unread).0, j)
  {
    if ids != [] {
      var front, id := ids[..|ids| - 1], ids[|ids| - 1];
      var w1 := Swept(w, front, unread).0;
      SweepKeeps(opening, w, front, unread, j);
      SweepKeeps(opening, w, front, unread, id);
      ReconciledWaiting(opening, w1, id);
      ReconciledKeeps(opening, w1, id, j);
      SweepUnfolds(w, front, id, unread);
      assert front + [id] == ids;
    }
  }

  ghost predicate AllPaid(w: World, ids: seq<nat>) {
    forall n :: 0 <= n < |ids| ==> ids[n] < |w.shop.orders| && w.shop.orders[ids[n]].status == Paid
  }

  /** A sweep whose reads all succeed pays every order it was given and counts each once. */
  lemma {:induction false} SweepSettlesAll(opening: map<Variant, int>, w: World, ids: seq<nat>, unread: set<nat>)
    requires GoodWorld(opening, w) && AllWaiting(w, ids, unread)
    ensures AllPaid(Swept(w, ids, unread).0, ids) && Swept(w, ids, unread).1 == |ids|
  {
    if ids != [] {
      var front, id := ids[..|ids| - 1], ids[|ids| - 1];
      var w1 := Swept(w, front, unread).0;
      SweepSettlesAll(opening, w, front, unread);
      SweepKeeps(opening, w, front, unread, id);
      ReconciledWaiting(opening, w1, id);
      SweepUnfolds(w, front, id, unread);
      assert front + [id] == ids;
      forall n | 0 <= n < |front| ensures Keeps(w1, Reconciled(w1, id, true, false).0, front[n]) && front[n] == ids[n] {
        ReconciledKeeps(opening, w1, id, front[n]);
      }
    }
  }

  // ── Refunds ────────────────────────────────────────────────────────────

  /** A refund is logged once per event, under the charge, and moves a paid, processing, shipped or delivered order. */
  lemma RefundedOutcome(w: World, event: string, charge: string, id: nat, amount: int, crash: bool)
    ensures var w' := ChargeRefunded(w, event, charge, id, amount, crash);
            if id >= |w.shop.orders| || ForEvent(event) in w.ledger then w' == w
            else
              && w' == w.(ledger := w.ledger[ForEvent(event) := LedgerRow(id, charge, Refund, true, amount)], shop := w'.shop)
              && if crash || w.shop.orders[id].status !in {Paid, Processing, Shipped, Delivered} then w'.shop == w.shop
                 else Advanced(w.shop, w'.shop, id, Refunded, "Refunded via Stripe", None)
  {
    TransitionedIff(w.shop, id, Refunded, "Refunded via Stripe", None);
  }
}
