/**
 * What a customer is charged: when the intent's amount is the order's total,
 * and when the order's subtotal is that of its own lines.
 */
module Charges {
  import opened Common
  import opened Inventory
  import opened Orders
  import opened OrderInvariants
  import opened Payments
  import opened Lifecycle
  import opened Evolution
  import opened Reservations
  import opened Interleavings
  import opened StaleReads
  import opened Convergence

  // ── The subtotal and the lines ─────────────────────────────────────────

  function Without(lines: seq<Line>, k: nat): seq<Line>
    requires k < |lines|
  {
    lines[..k] + lines[k + 1..]
  }

  lemma {:induction false} SubtotalWithout(lines: seq<Line>, k: nat)
    requires k < |lines|
    ensures Subtotal(lines) == Subtotal(Without(lines, k)) + lines[k].unitPrice * lines[k].quantity
  {
    var n := |lines| - 1;
    var rest := Without(lines, k);
    if k == n {
      assert rest == lines[..n];
    } else {
      assert rest[..|rest| - 1] == Without(lines[..n], k) && rest[|rest| - 1] == lines[n];
      SubtotalWithout(lines[..n], k);
    }
  }

  lemma MultisetWithout(lines: seq<Line>, k: nat)
    requires k < |lines|
    ensures multiset(Without(lines, k)) == multiset(lines) - multiset{lines[k]}
  {
    assert lines == lines[..k] + [lines[k]] + lines[k + 1..];
  }

  lemma WithoutSame(a: seq<Line>, b: seq<Line>, k: nat)
    requires a != [] && multiset(a) == multiset(b) && k < |b| && b[k] == a[0]
    ensures multiset(Without(a, 0)) == multiset(Without(b, k))
  {
    MultisetWithout(a, 0);
    MultisetWithout(b, k);
  }

  /** The same lines in any order cost the same. */
  lemma {:induction false} SubtotalOfSameLines(a: seq<Line>, b: seq<Line>)
    requires multiset(a) == multiset(b)
    ensures Subtotal(a) == Subtotal(b)
    decreases |a|
  {
    assert |a| == |multiset(a)| == |multiset(b)| == |b|;
    if a != [] {
      assert a[0] in multiset(b);
      var k :| 0 <= k < |b| && b[k] == a[0];
      WithoutSame(a, b, k);
      SubtotalOfSameLines(Without(a, 0), Without(b, k));
      SubtotalWithout(a, 0);
      SubtotalWithout(b, k);
    }
  }

  predicate SubtotalOk(o: Order) {
    o.money.subtotal == Subtotal(o.lines)
  }

  ghost predicate EachSubtotalOk(s: Shop) {
    forall id :: 0 <= id < |s.orders| ==> SubtotalOk(s.orders[id])
  }

  /** Re-pricing writes the cart's subtotal on an order whose lines it leaves alone, and they differ. */
  predicate Misprices(sys: System, action: Action) {
    var s := sys.world.shop;
    match action
    case Whole(step) =>
      var id := ResumedBy(s, step);
      id.Some? && s.orders[id.value].paymentIntent.Some? && Subtotal(step.cart.value.lines) != Subtotal(s.orders[id.value].lines)
    case Proceed(n, _) =>
      n < |sys.calls| && sys.calls[n].Resuming? && sys.calls[n].id < |s.orders| &&
      Subtotal(sys.calls[n].cart.lines) != Subtotal(s.orders[sys.calls[n].id].lines)
    case _ => false
  }

  lemma ResumedSubtotal(s: Shop, id: nat, lines: seq<Line>, p: Pricing)
    requires EachSubtotalOk(s) && id < |s.orders|
    ensures EachSubtotalOk(Resumed(s, id, lines, p)) <==> Subtotal(lines) == Subtotal(s.orders[id].lines)
  {
    var s' := Resumed(s, id, lines, p);
    assert SubtotalOk(s'.orders[id]) <==> Subtotal(lines) == Subtotal(s.orders[id].lines);
  }

  lemma NewSubtotals(w: World, step: Step)
    ensures forall j :: |w.shop.orders| <= j < |Next(w, step).shop.orders| ==> SubtotalOk(Next(w, step).shop.orders[j])
  {
    NextEvolved(w, step);
    if step.InitiateStep? || step.CreateFromCartStep? { PlacedSubtotals(w, step); }
  }

  lemma PlacedSubtotals(w: World, step: Step)
    requires step.InitiateStep? || step.CreateFromCartStep?
    ensures forall j :: |w.shop.orders| <= j < |Next(w, step).shop.orders| ==> SubtotalOk(Next(w, step).shop.orders[j])
  {
  }

  lemma NextSubtotalsIff(sys: System, step: Step)
    requires EachSubtotalOk(sys.world.shop)
    ensures EachSubtotalOk(Next(sys.world, step).shop) <==> !Misprices(sys, Whole(step))
  {
    var s, s', id := sys.world.shop, Next(sys.world, step).shop, ResumedBy(sys.world.shop, step);
    NextEvolved(sys.world, step);
    if id.Some? {
      var lines := step.cart.value.lines;
      ResumedSubtotal(s, id.value, lines, step.pricing);
      if s.orders[id.value].paymentIntent.None? { SubtotalOfSameLines(s.orders[id.value].lines, lines); }
    } else {
      NewSubtotals(sys.world, step);
      forall j | 0 <= j < |s'.orders| ensures SubtotalOk(s'.orders[j]) {
        if j < |s.orders| { assert Evolves(s.orders[j], s'.orders[j]) && SubtotalOk(s.orders[j]); }
      }
    }
  }

  lemma CarriedSubtotals(w: World, call: Call, lag: nat)
    requires EachSubtotalOk(w.shop) && !call.Resuming?
    ensures EachSubtotalOk(Carried(w, call, lag).0.shop)
  {
    var s, s' := w.shop, Carried(w, call, lag).0.shop;
    forall j | 0 <= j < |s'.orders| ensures SubtotalOk(s'.orders[j]) {
      if j < |s.orders| { assert SubtotalOk(s.orders[j]); }
    }
  }

  lemma ActedSubtotalsIff(sys: System, action: Action)
    requires EachSubtotalOk(sys.world.shop)
    ensures EachSubtotalOk(Acted(sys, action).world.shop) <==> !Misprices(sys, action)
  {
    match action
    case Whole(step) => NextSubtotalsIff(sys, step);
    case Proceed(n, lag) =>
      if n < |sys.calls| {
        var call := sys.calls[n];
        if !call.Resuming? {
          CarriedSubtotals(sys.world, call, lag);
        } else if call.id < |sys.world.shop.orders| {
          ResumedSubtotal(sys.world.shop, call.id, call.cart.lines, call.pricing);
        }
      }
    case _ =>
  }

  ghost predicate SubtotalsAlways(sys: System, actions: seq<Action>) {
    && EachSubtotalOk(ActedAll(sys, actions).world.shop)
    && (actions != [] ==> SubtotalsAlways(sys, actions[..|actions| - 1]))
  }

  predicate NeverMisprices(sys: System, actions: seq<Action>) {
    actions != [] ==>
      && NeverMisprices(sys, actions[..|actions| - 1])
      && !Misprices(ActedAll(sys, actions[..|actions| - 1]), actions[|actions| - 1])
  }

  /**
   * In every interleaving the subtotal an order shows is that of its own lines,
   * all along, exactly when no order is re-priced from a cart that costs
   * something else. Resumed as a whole, that takes a payment already started.
   */
  lemma {:induction false} SubtotalsAlwaysIff(sys: System, actions: seq<Action>)
    requires EachSubtotalOk(sys.world.shop)
    ensures SubtotalsAlways(sys, actions) <==> NeverMisprices(sys, actions)
  {
    if actions != [] {
      var front, last := actions[..|actions| - 1], actions[|actions| - 1];
      SubtotalsAlwaysIff(sys, front);
      if SubtotalsAlways(sys, front) { ActedSubtotalsIff(ActedAll(sys, front), last); }
    }
  }

  // ── The total and the intent ───────────────────────────────────────────

  /** The order's own intent is for exactly its total. */
  predicate Synced(w: World, id: nat) {
    && id < |w.shop.orders| && w.shop.orders[id].paymentIntent.Some?
    && var i := w.shop.orders[id].paymentIntent.value;
       i in w.stripe && w.stripe[i].order == Some(id) && w.stripe[i].amount == w.shop.orders[id].money.total
  }

  /** A confirmation of the order would record the intent it comes with. */
  predicate Links(s: Shop, id: nat)
    requires id < |s.orders|
  {
    s.orders[id].status != Paid && (s.orders[id].status == Cancelled ==> Restored(s, id).error.None?)
  }

  /** Shipping, a resumption or another intent's money changes what the order costs, or what is held for it. */
  predicate OutOfStep(w: World, step: Step, id: nat)
    requires id < |w.shop.orders|
  {
    var o := w.shop.orders[id];
    match step
    case ShippingStep(j, quote) =>
      j == id && Open(o.status) && quote.Some? &&
      o.money.subtotal - o.money.discount - o.money.categoryDiscount + o.money.tax + quote.value.cents != o.money.total
    case InitiateStep(cart, p, _, _) => ResumedBy(w.shop, step) == Some(id) && Priced(cart.value.lines, p, o.money.tax).total != o.money.total
    case WebhookStep(k, crash) =>
      k in w.stripe && w.stripe[k].status == Succeeded && w.stripe[k].order == Some(id) && !crash && Links(w.shop, id) &&
      w.stripe[k].amount != o.money.total
    case _ => false
  }

  predicate OutOfStepLate(w: World, call: Call, id: nat)
    requires id < |w.shop.orders|
  {
    match call
    case Resuming(c, p, j) => j == id && Priced(c.lines, p, w.shop.orders[id].money.tax).total != w.shop.orders[id].money.total
    case Linking(j, k, _) => j == id && k in w.stripe && w.stripe[k].amount != w.shop.orders[id].money.total
    case _ => false
  }

  lemma SameSync(w: World, w': World, id: nat)
    requires Synced(w, id) && id < |w'.shop.orders|
    requires w'.shop.orders[id].money == w.shop.orders[id].money && w'.shop.orders[id].paymentIntent == w.shop.orders[id].paymentIntent
    requires w.shop.orders[id].paymentIntent.value in w'.stripe
    requires var i := w.shop.orders[id].paymentIntent.value; w'.stripe[i].amount == w.stripe[i].amount && w'.stripe[i].order == w.stripe[i].order
    ensures Synced(w', id)
  {
  }

  /** A confirmation changes no money, and the intent exactly when it links. */
  lemma ConfirmedLinks(opening: map<Variant, int>, s: Shop, id: nat, k: string)
    requires Good(opening, s) && id < |s.orders|
    ensures var s' := Confirmed(s, id, k).shop;
            && |s'.orders| == |s.orders| && s'.orders[id].money == s.orders[id].money
            && s'.orders[id].paymentIntent == if Links(s, id) then Some(k) else s.orders[id].paymentIntent
  {
    assert OrderOk(s.orders[id]);
    ConfirmedOutcome(opening, s, id, k);
    if Payable(s, id) { ConfirmedPays(opening, s, id, k); }
  }

  lemma ReconciledSync(opening: map<Variant, int>, w: World, j: nat, up: bool, crash: bool, id: nat)
    requires GoodWorld(opening, w) && Synced(w, id)
    ensures Synced(Reconciled(w, j, up, crash).0, id)
  {
    var i := SucceededIntent(w, j, up);
    if i.Some? {
      if j == id { ConfirmedLinks(opening, w.shop, id, i.value); } else { ConfirmedFrame(opening, w.shop, j, i.value, id); }
    }
  }

  lemma {:induction false} SweptSync(opening: map<Variant, int>, w: World, ids: seq<nat>, unread: set<nat>, id: nat)
    requires GoodWorld(opening, w) && Synced(w, id)
    ensures Synced(Swept(w, ids, unread).0, id)
  {
    if ids != [] {
      var front, last := ids[..|ids| - 1], ids[|ids| - 1];
      SweptSync(opening, w, front, unread, id);
      SweptGood(opening, w, front, unread);
      ReconciledSync(opening, Swept(w, front, unread).0, last, last !in unread, false, id);
    }
  }

  lemma FiredSync(opening: map<Variant, int>, w: World, key: JobKey, up: bool, again: bool, lag: nat, id: nat)
    requires GoodWorld(opening, w) && Synced(w, id)
    ensures Synced(Fired(w, key, up, again, lag), id)
  {
    var done, w' := Dropped(w, key), Fired(w, key, up, again, lag);
    RequeuedGood(opening, w.shop, done.shop);
    SameSync(w, done, id);
    ReconciledSync(opening, done, key.order, again, false, id);
    TransitionedSync(done, key.order, Cancelled, "Reservation expired — payment timeout", None, id);
    if key.order < |w.shop.orders| { SameSync(done, Postponed(done, key, lag), id); }
  }

  lemma TransitionedSync(w: World, j: nat, to: Status, note: string, admin: Option<string>, id: nat)
    requires Synced(w, id)
    ensures Synced(OnShop(w, Transitioned(w.shop, j, to, note, admin)), id)
  {
  }

  /** Opening the payment form keeps an order in step, and no other order's form can reach its intent. */
  lemma MintedSync(w: World, j: nat, newId: string, testAllowed: bool, g: Gateway, lag: nat, id: nat)
    requires Synced(w, id) && newId !in w.stripe && (j < |w.shop.orders| ==> OwnIntent(w, j))
    ensures Synced(Minted(w, j, newId, testAllowed, g, lag).0, id)
  {
  }

  lemma InitiatedSync(w: World, step: Step, id: nat)
    requires Synced(w, id) && step.InitiateStep?
    ensures Synced(Next(w, step), id) <==> !OutOfStep(w, step, id)
  {
    if step.cart.Some? && step.cart.value.lines != [] {
      var c := step.cart.value;
      var found := FindOpen(w.shop.orders, c.token);
      if found.None? {
        DraftPlacedFrame(w.shop, c, step.pricing, step.pricesOk, step.lag, id);
      } else if Outdated(w.shop.orders[found.value], c.lines) {
        TransitionedFrame(w.shop, found.value, Cancelled, REBUILT_NOTE, None, id);
        DraftPlacedFrame(Transitioned(w.shop, found.value, Cancelled, REBUILT_NOTE, None).shop, c, step.pricing, step.pricesOk, step.lag, id);
      }
    }
  }

  lemma PayingSync(opening: map<Variant, int>, w: World, k: string, crash: bool, id: nat)
    requires GoodWorld(opening, w) && Synced(w, id)
    ensures Synced(Next(w, WebhookStep(k, crash)), id) <==> !OutOfStep(w, WebhookStep(k, crash), id)
  {
    if k in w.stripe && w.stripe[k].order.Some? && w.stripe[k].order.value < |w.shop.orders| {
      var j := w.stripe[k].order.value;
      if j == id { ConfirmedLinks(opening, w.shop, id, k); } else { ConfirmedFrame(opening, w.shop, j, k, id); }
    }
  }

  lemma AdminSync(opening: map<Variant, int>, w: World, step: Step, id: nat)
    requires GoodWorld(opening, w) && Synced(w, id) && step.AdminStep?
    ensures Synced(Next(w, step), id)
  {
    if step.to != Paid {
      TransitionedSync(w, step.id, step.to, step.note, Some(step.admin), id);
    } else if step.id < |w.shop.orders| {
      var k := ManualIntent(w.shop.orders[step.id], step.note);
      if step.id == id { ConfirmedLinks(opening, w.shop, id, k); } else { ConfirmedFrame(opening, w.shop, step.id, k, id); }
    }
  }

  lemma QuietSync(w: World, step: Step, id: nat)
    requires Synced(w, id)
    requires
      || step.CreateFromCartStep? || step.ReadyStep? || step.FailedStep?
      || step.AdjustStep? || step.RestockStep? || step.StripeStep? || step.TickStep?
    ensures Synced(Next(w, step), id)
  {
  }

  lemma ReversalSync(w: World, step: Step, id: nat)
    requires Synced(w, id) && (step.ReturnClosedStep? || step.RefundStep?)
    ensures Synced(Next(w, step), id)
  {
    match step
    case ReturnClosedStep(j) => TransitionedSync(w, j, Refunded, "Fully refunded via returns", None, id);
    case RefundStep(_, _, j, _, _) => TransitionedSync(w, j, Refunded, "Refunded via Stripe", None, id);
  }

  lemma NextSyncIff(pending: set<nat>, opening: map<Variant, int>, w: World, step: Step, id: nat)
    requires GoodWorld(opening, w) && Queueing(pending, w) && Synced(w, id)
    ensures Synced(Next(w, step), id) <==> !OutOfStep(w, step, id)
  {
    match step
    case InitiateStep(_, _, _, _) => InitiatedSync(w, step, id);
    case ShippingStep(_, _) =>
    case MintStep(j, newId, testAllowed, g, lag) => if newId !in w.stripe { MintedSync(w, j, newId, testAllowed, g, lag, id); }
    case AdminStep(_, _, _, _) => AdminSync(opening, w, step, id);
    case WebhookStep(k, crash) => PayingSync(opening, w, k, crash, id);
    case ReconcileStep(j, up, crash) => ReconciledSync(opening, w, j, up, crash, id);
    case SweepStep(ids, unread) => SweptSync(opening, w, ids, unread, id);
    case TimerStep(key, up, again, lag) => FiredSync(opening, w, key, up, again, lag, id);
    case ReturnClosedStep(_) => ReversalSync(w, step, id);
    case RefundStep(_, _, _, _, _) => ReversalSync(w, step, id);
    case _ => QuietSync(w, step, id);
  }

  lemma CarriedSyncIff(w: World, call: Call, lag: nat, id: nat)
    requires Synced(w, id) && SettlingOk(w, call)
    ensures Synced(Carried(w, call, lag).0, id) <==> !OutOfStepLate(w, call, id)
  {
  }

  predicate OutOfStepIn(sys: System, action: Action, id: nat)
    requires id < |sys.world.shop.orders|
  {
    match action
    case Whole(step) => OutOfStep(sys.world, step, id)
    case Proceed(n, _) => n < |sys.calls| && OutOfStepLate(sys.world, sys.calls[n], id)
    case _ => false
  }

  lemma ActedSyncIff(opening: map<Variant, int>, sys: System, action: Action, id: nat)
    requires SoundSystem(opening, sys) && Synced(sys.world, id)
    ensures Synced(Acted(sys, action).world, id) <==> !OutOfStepIn(sys, action, id)
  {
    match action
    case Whole(step) => NextSyncIff(UnfinishedOrders(sys.calls), opening, sys.world, step, id);
    case Proceed(n, lag) =>
      if n < |sys.calls| {
        assert SettlingOk(sys.world, sys.calls[n]);
        CarriedSyncIff(sys.world, sys.calls[n], lag, id);
      }
    case _ =>
  }

  predicate SyncedAlways(sys: System, actions: seq<Action>, id: nat) {
    Synced(ActedAll(sys, actions).world, id) && (actions != [] ==> SyncedAlways(sys, actions[..|actions| - 1], id))
  }

  predicate NeverOutOfStep(sys: System, actions: seq<Action>, id: nat) {
    actions != [] ==>
      && NeverOutOfStep(sys, actions[..|actions| - 1], id)
      && id < |ActedAll(sys, actions[..|actions| - 1]).world.shop.orders|
      && !OutOfStepIn(ActedAll(sys, actions[..|actions| - 1]), actions[|actions| - 1], id)
  }

  /**
   * From the moment the payment form shows an order's total, the intent stays
   * for exactly that total exactly when neither shipping nor a resumption
   * re-totals the order, and no money of another amount is settled on it.
   */
  lemma {:induction false} SyncedAlwaysIff(opening: map<Variant, int>, sys: System, actions: seq<Action>, id: nat)
    requires SoundSystem(opening, sys) && HarmlessRun(sys, actions) && Synced(sys.world, id)
    ensures SyncedAlways(sys, actions, id) <==> NeverOutOfStep(sys, actions, id)
  {
    if actions != [] {
      var front, last := actions[..|actions| - 1], actions[|actions| - 1];
      var before := ActedAll(sys, front);
      SyncedAlwaysIff(opening, sys, front, id);
      if SyncedAlways(sys, front, id) {
        ActedAllSound(opening, sys, front);
        ActedSyncIff(opening, before, last, id);
      }
    }
  }

  /** Whatever intent the payment form is given, the order is in step with it. */
  lemma MintSyncs(pending: set<nat>, w: World, id: nat, newId: string, testAllowed: bool, g: Gateway, lag: nat)
    requires Queueing(pending, w) && newId !in w.stripe && Minted(w, id, newId, testAllowed, g, lag).1.Ok?
    ensures Synced(Minted(w, id, newId, testAllowed, g, lag).0, id)
  {
    assert OwnIntent(w, id);
  }

  // ── The ledger ─────────────────────────────────────────────────────────

  ghost predicate ChargeMatches(w: World, i: string) {
    ForIntent(i) in w.ledger ==> i in w.stripe && w.stripe[i].status == Succeeded && w.ledger[ForIntent(i)].amount == w.stripe[i].amount
  }

  /** Money the ledger has for an intent is what Stripe took. */
  ghost predicate LedgerMatches(w: World) {
    forall i :: ChargeMatches(w, i)
  }

  lemma MatchesKept(w: World, w': World)
    requires LedgerMatches(w) && StripeKept(w, w')
    requires forall i :: ForIntent(i) in w'.ledger ==> ForIntent(i) in w.ledger && w'.ledger[ForIntent(i)] == w.ledger[ForIntent(i)]
    ensures LedgerMatches(w')
  {
    forall i ensures ChargeMatches(w', i) { assert ChargeMatches(w, i); }
  }

  lemma RecordedMatches(w: World, i: string, id: nat)
    requires LedgerMatches(w) && i in w.stripe && w.stripe[i].status == Succeeded
    ensures LedgerMatches(Recorded(w, ForIntent(i), ChargeRow(id, i, w.stripe[i].amount)).0)
  {
    var w' := Recorded(w, ForIntent(i), ChargeRow(id, i, w.stripe[i].amount)).0;
    forall k ensures ChargeMatches(w', k) { assert ChargeMatches(w, k); }
  }

  lemma ReconciledMatches(w: World, id: nat, up: bool, crash: bool)
    requires LedgerMatches(w)
    ensures LedgerMatches(Reconciled(w, id, up, crash).0)
  {
    var i := SucceededIntent(w, id, up);
    if i.Some? {
      RecordedMatches(w, i.value, id);
      MatchesKept(Recorded(w, ForIntent(i.value), ChargeRow(id, i.value, w.stripe[i.value].amount)).0, Reconciled(w, id, up, crash).0);
    }
  }

  lemma {:induction false} SweptMatches(w: World, ids: seq<nat>, unread: set<nat>)
    requires LedgerMatches(w)
    ensures LedgerMatches(Swept(w, ids, unread).0)
  {
    if ids != [] {
      SweptMatches(w, ids[..|ids| - 1], unread);
      ReconciledMatches(Swept(w, ids[..|ids| - 1], unread).0, ids[|ids| - 1], ids[|ids| - 1] !in unread, false);
    }
  }

  lemma PayingMatches(w: World, i: string, crash: bool)
    requires LedgerMatches(w)
    ensures LedgerMatches(Next(w, WebhookStep(i, crash)))
  {
    if i in w.stripe && w.stripe[i].status == Succeeded && w.stripe[i].order.Some? {
      var recorded := Recorded(w, ForIntent(i), ChargeRow(w.stripe[i].order.value, i, w.stripe[i].amount)).0;
      RecordedMatches(w, i, w.stripe[i].order.value);
      if w.stripe[i].order.value < |w.shop.orders| { MatchesKept(recorded, Next(w, WebhookStep(i, crash))); }
    }
  }

  lemma FiredMatches(w: World, key: JobKey, up: bool, again: bool, lag: nat)
    requires LedgerMatches(w)
    ensures LedgerMatches(Fired(w, key, up, again, lag))
  {
    var done := Dropped(w, key);
    MatchesKept(w, done);
    ReconciledMatches(done, key.order, again, false);
    FiredLedger(w, key, up, again, lag);
    if Fired(w, key, up, again, lag).ledger == w.ledger { MatchesKept(w, Fired(w, key, up, again, lag)); }
  }

  lemma FiredLedger(w: World, key: JobKey, up: bool, again: bool, lag: nat)
    ensures var w', settled := Fired(w, key, up, again, lag), Reconciled(Dropped(w, key), key.order, again, false).0;
            w' == settled || (w'.ledger == w.ledger && w'.stripe == w.stripe)
  {
  }

  lemma NextMatches(w: World, step: Step)
    requires LedgerMatches(w)
    ensures LedgerMatches(Next(w, step))
  {
    match step
    case WebhookStep(i, crash) => PayingMatches(w, i, crash);
    case ReconcileStep(id, up, crash) => ReconciledMatches(w, id, up, crash);
    case SweepStep(ids, unread) => SweptMatches(w, ids, unread);
    case TimerStep(key, up, again, lag) => FiredMatches(w, key, up, again, lag);
    case _ =>
      NextKeepsStripe(w, step);
      NoNewCharge(w, step);
      MatchesKept(w, Next(w, step));
  }

  lemma NoNewCharge(w: World, step: Step)
    requires !step.WebhookStep? && !step.ReconcileStep? && !step.SweepStep? && !step.TimerStep?
    ensures forall i :: ForIntent(i) in Next(w, step).ledger ==>
                          ForIntent(i) in w.ledger && Next(w, step).ledger[ForIntent(i)] == w.ledger[ForIntent(i)]
  {
  }

  lemma {:induction false} ActedAllMatches(sys: System, actions: seq<Action>)
    requires LedgerMatches(sys.world)
    ensures LedgerMatches(ActedAll(sys, actions).world)
  {
    if actions != [] {
      var before, last := ActedAll(sys, actions[..|actions| - 1]), actions[|actions| - 1];
      ActedAllMatches(sys, actions[..|actions| - 1]);
      match last
      case Whole(step) => NextMatches(before.world, step);
      case Proceed(n, lag) => if n < |before.calls| { MatchesKept(before.world, Carried(before.world, before.calls[n], lag).0); }
      case _ =>
    }
  }

  /**
   * In every interleaving, an order whose own intent the ledger knows was
   * charged exactly its total if and only if the two are in step.
   */
  lemma ChargedItsTotalIff(opening: map<Variant, int>, actions: seq<Action>, id: nat, i: string)
    requires var w := ActedAll(System(Opened(opening), []), actions).world;
             && id < |w.shop.orders| && w.shop.orders[id].paymentIntent == Some(i) && ForIntent(i) in w.ledger
             && (i in w.stripe ==> w.stripe[i].order == Some(id))
    ensures var w := ActedAll(System(Opened(opening), []), actions).world;
            w.ledger[ForIntent(i)].amount == w.shop.orders[id].money.total <==> Synced(w, id)
  {
    var w := ActedAll(System(Opened(opening), []), actions).world;
    ActedAllMatches(System(Opened(opening), []), actions);
    assert ChargeMatches(w, i);
  }

  /** So an order whose form showed its total, and that nothing put out of step since, is charged exactly what it costs. */
  lemma ChargedItsTotal(opening: map<Variant, int>, sys: System, actions: seq<Action>, id: nat)
    requires SoundSystem(opening, sys) && LedgerMatches(sys.world) && HarmlessRun(sys, actions)
    requires Synced(sys.world, id) && NeverOutOfStep(sys, actions, id)
    ensures var w := ActedAll(sys, actions).world;
            && Synced(w, id)
            && var i := w.shop.orders[id].paymentIntent.value;
               ForIntent(i) in w.ledger ==> w.ledger[ForIntent(i)].amount == w.shop.orders[id].money.total
  {
    SyncedAlwaysIff(opening, sys, actions, id);
    ActedAllMatches(sys, actions);
    var w := ActedAll(sys, actions).world;
    assert ChargeMatches(w, w.shop.orders[id].paymentIntent.value);
  }
}
