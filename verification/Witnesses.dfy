/**
 * Concrete runs and inputs that reach the states the general theorems single
 * out: one for each place where the code falls short of what it is for.
 */
module Witnesses {
  import opened Common
  import opened Inventory
  import opened Orders
  import opened OrderInvariants
  import opened Payments
  import opened Lifecycle
  import opened Reservations
  import opened Interleavings
  import opened Evolution
  import opened Confirmations
  import opened OpenOrders
  import opened Charges

  // ── A sale, step by step ───────────────────────────────────────────────

  const CAP := Line(Some("cap"), 1, 2000, multiset{})

  const BASKET := Cart("c", [CAP])

  const NO_PROMOTION := Pricing(0, 0, 0, None)

  const SHELF: map<Variant, int> := map["cap" := 1]

  const DRAFT := Order(Draft, [CAP], [HistoryRow(None, Draft, "Checkout initiated", None)], None,
                       Some(900_000), Some("c"), None, None, Money(2000, 0, 0, 0, 0, 2000))

  const SOLD := DRAFT.(status := AwaitingPayment, paymentIntent := Some("pi"),
                       history := DRAFT.history + [HistoryRow(Some(Draft), AwaitingPayment, "Customer proceeded to payment", None)])

  const BOOKED := Book(map["cap" := Stock(0, 1, 0)], [Movement("cap", Some(0), OrderPlaced, -1, 0, 1, 0)])

  lemma CapReserved(b: Book, id: nat)
    requires "cap" in b.rows && 1 <= b.rows["cap"].available
    ensures ReservedLines(b, [CAP], id) == Ok(Applied(b, OrderPlaced, "cap", 1, Some(id)))
  {
    assert [CAP][..0] == [];
    assert ReservedLines(b, [], id) == Ok(b);
  }

  lemma DraftFor(s: Shop)
    requires s.now == 0
    ensures NewDraft(s, BASKET, NO_PROMOTION) == DRAFT
  {
    assert [CAP][..0] == [];
    assert Subtotal([CAP]) == 2000;
  }

  lemma FirstCheckout()
    ensures Initiated(Opened(SHELF).shop, Some(BASKET), NO_PROMOTION, true, 0)
         == Reply(Opened(SHELF).shop.(book := BOOKED, orders := [DRAFT], jobs := map[FirstExpiry(0) := 900_000]), None)
  {
    var s := Opened(SHELF).shop;
    assert s.book.rows == map["cap" := Stock(1, 0, 0)];
    CapReserved(s.book, 0);
    DraftFor(s);
    assert Applied(s.book, OrderPlaced, "cap", 1, Some(0)) == BOOKED;
    assert DRAFT.lines == [CAP] && s.orders + [DRAFT] == [DRAFT];
    assert Created(s, DRAFT) == Ok(s.(book := BOOKED, orders := [DRAFT]));
    assert FindOpen(s.orders, "c").None?;
  }

  const PROCEED_NOTE := "Customer proceeded to payment"

  const CHECKOUT := InitiateStep(Some(BASKET), NO_PROMOTION, true, 0)

  const READY := ReadyStep(0, true, true, true)

  const MINT := MintStep(0, "pi", true, Gateway(true, true, true), 0)

  const PAY := StripeStep("pi", Succeeded)

  const JOBS: map<JobKey, nat> := map[FirstExpiry(0) := 900_000, ExtendedExpiry(0, 900_000) := 901_000]

  /** The shop after the checkout, the step to payment, the payment form and the payment at Stripe. */
  function Drafted(): World {
    World(Shop(BOOKED, [DRAFT], map[FirstExpiry(0) := 900_000], multiset{}, multiset{}, 0), map[], map[])
  }

  function Readied(): World {
    Drafted().(shop := Drafted().shop.(orders := [SOLD.(paymentIntent := None)]))
  }

  function Shown(): World {
    World(Drafted().shop.(orders := [SOLD], jobs := JOBS), map[], map["pi" := Intent(NeedsMethod, 2000, true, Some(0))])
  }

  function Held(): World {
    Shown().(stripe := map["pi" := Intent(Succeeded, 2000, true, Some(0))])
  }

  lemma CheckoutStep()
    ensures Next(Opened(SHELF), CHECKOUT) == Drafted()
  {
    FirstCheckout();
  }

  lemma ReadyStepTaken()
    ensures Next(Drafted(), READY) == Readied()
  {
  }

  lemma MintStepTaken()
    ensures Next(Readied(), MINT) == Shown()
  {
    assert Next(Readied(), MINT).shop.orders == [SOLD];
    assert Next(Readied(), MINT).shop.jobs == JOBS;
  }

  lemma PayStepTaken()
    ensures Next(Shown(), PAY) == Held()
  {
  }

  lemma ActedOn(sys: System, actions: seq<Action>, last: Action)
    ensures ActedAll(sys, actions + [last]) == Acted(ActedAll(sys, actions), last)
  {
    assert (actions + [last])[..|actions|] == actions;
  }

  function Begun(): System {
    System(Opened(SHELF), [])
  }

  const CHECKED_OUT: seq<Action> := [] + [Whole(CHECKOUT)]

  /** The customer goes on and pays. */
  function ToPay(actions: seq<Action>): seq<Action> {
    actions + [Whole(READY)] + [Whole(MINT)] + [Whole(PAY)]
  }

  lemma CheckedOut()
    ensures ActedAll(Begun(), CHECKED_OUT) == System(Drafted(), [])
  {
    CheckoutStep();
    ActedOn(Begun(), [], Whole(CHECKOUT));
  }

  lemma ThenPays(sys: System, actions: seq<Action>, calls: seq<Call>)
    requires ActedAll(sys, actions) == System(Drafted(), calls)
    ensures ActedAll(sys, ToPay(actions)) == System(Held(), calls)
  {
    ReadyStepTaken();
    MintStepTaken();
    PayStepTaken();
    ActedOn(sys, actions, Whole(READY));
    ActedOn(sys, actions + [Whole(READY)], Whole(MINT));
    ActedOn(sys, actions + [Whole(READY)] + [Whole(MINT)], Whole(PAY));
  }

  // ── A deadline nobody enforces ─────────────────────────────────────────

  const FIRST_FIRING := TimerStep(FirstExpiry(0), true, false, 0)

  const SECOND_FIRING := TimerStep(ExtendedExpiry(0, 900_000), true, false, 0)

  const DUE: seq<Action> := ToPay(CHECKED_OUT) + [Whole(TickStep(901_000))]

  const UNENFORCED: seq<Action> := DUE + [Whole(FIRST_FIRING)] + [Whole(SECOND_FIRING)]

  function LateWith(jobs: map<JobKey, nat>): World {
    Held().(shop := Held().shop.(now := 901_000, jobs := jobs))
  }

  lemma JobsFire()
    ensures Next(LateWith(JOBS), FIRST_FIRING) == LateWith(map[ExtendedExpiry(0, 900_000) := 901_000])
    ensures Next(LateWith(map[ExtendedExpiry(0, 900_000) := 901_000]), SECOND_FIRING) == LateWith(map[])
  {
    assert JOBS - {FirstExpiry(0)} == map[ExtendedExpiry(0, 900_000) := 901_000];
    assert map[ExtendedExpiry(0, 900_000) := 901_000] - {ExtendedExpiry(0, 900_000)} == map[];
  }

  lemma BothDue()
    ensures ActedAll(Begun(), DUE) == System(LateWith(JOBS), [])
  {
    CheckedOut();
    ThenPays(Begun(), CHECKED_OUT, []);
    ActedOn(Begun(), ToPay(CHECKED_OUT), Whole(TickStep(901_000)));
    assert Next(Held(), TickStep(901_000)) == LateWith(JOBS);
  }

  lemma BothFire()
    ensures ActedAll(Begun(), UNENFORCED) == System(LateWith(map[]), [])
  {
    BothDue();
    JobsFire();
    ActedOn(Begun(), DUE, Whole(FIRST_FIRING));
    ActedOn(Begun(), DUE + [Whole(FIRST_FIRING)], Whole(SECOND_FIRING));
  }

  /** Both jobs run while only the settlement's read fails: the order is open, past its deadline, and nothing is queued. */
  lemma UnenforcedDeadline()
    ensures var w := ActedAll(Begun(), UNENFORCED).world;
            w.shop.orders == [SOLD] && w.shop.jobs == map[] && HasDeadline(SOLD) && !JobWaits(w.shop, 0)
  {
    BothFire();
  }

  // ── Two tabs ───────────────────────────────────────────────────────────

  const LOOK := LookUp(Some(BASKET), NO_PROMOTION, true)

  const BUILD := Building(BASKET, NO_PROMOTION, true)

  const TWO_TABS: seq<Action> := [] + [LOOK] + [LOOK] + [Proceed(0, 0)] + [Proceed(1, 0)]

  lemma CapBuilt(w: World)
    requires w.shop.now == 0 && "cap" in w.shop.book.rows && 1 <= w.shop.book.rows["cap"].available
    ensures Carried(w, BUILD, 0)
         == (w.(shop := w.shop.(book := Applied(w.shop.book, OrderPlaced, "cap", 1, Some(|w.shop.orders|)), orders := w.shop.orders + [DRAFT])),
             Placed(|w.shop.orders|))
  {
    CapReserved(w.shop.book, |w.shop.orders|);
    DraftFor(w.shop);
    assert DRAFT.lines == [CAP];
  }

  lemma SecondBuilds(w: World)
    requires w.shop.now == 0 && w.shop.orders == [DRAFT] && w.shop.book.rows == map["cap" := Stock(1, 1, 0)]
    ensures var s := Acted(System(w, [Placed(0), BUILD]), Proceed(1, 0)).world.shop;
            s.orders == [DRAFT, DRAFT] && s.book.rows == map["cap" := Stock(0, 2, 0)]
  {
    CapBuilt(w);
    assert Carried(w, BUILD, 0).0.shop.orders == [DRAFT] + [DRAFT];
  }

  lemma BothBuild(w: World)
    requires w.shop.now == 0 && w.shop.orders == [] && w.shop.book.rows == map["cap" := Stock(2, 0, 0)]
    ensures var once := Acted(System(w, [BUILD, BUILD]), Proceed(0, 0));
            var s := Acted(once, Proceed(1, 0)).world.shop;
            s.orders == [DRAFT, DRAFT] && s.book.rows == map["cap" := Stock(0, 2, 0)]
  {
    CapBuilt(w);
    var w1 := Carried(w, BUILD, 0).0;
    assert w1.shop.orders == [DRAFT] && w1.shop.book.rows == map["cap" := Stock(1, 1, 0)] && w1.shop.now == 0;
    SecondBuilds(w1);
    assert Acted(System(w, [BUILD, BUILD]), Proceed(0, 0)) == System(w1, [Placed(0), BUILD]);
  }

  /** One checkout submitted twice: both look the cart's order up before either creates it, and its cap is reserved twice. */
  lemma TwoTabs()
    ensures var s := ActedAll(System(Opened(map["cap" := 2]), []), TWO_TABS).world.shop;
            s.orders == [DRAFT, DRAFT] && !OneOpenPerCart(s) && s.book.rows == map["cap" := Stock(0, 2, 0)]
  {
    var w := Opened(map["cap" := 2]);
    var sys := System(w, []);
    assert w.shop.book.rows == map["cap" := Stock(2, 0, 0)];
    BothBuild(w);
    ActedOn(sys, [], LOOK);
    ActedOn(sys, [] + [LOOK], LOOK);
    ActedOn(sys, [] + [LOOK] + [LOOK], Proceed(0, 0));
    ActedOn(sys, [] + [LOOK] + [LOOK] + [Proceed(0, 0)], Proceed(1, 0));
    assert Acted(Acted(sys, LOOK), LOOK) == System(w, [BUILD, BUILD]);
    var s := ActedAll(sys, TWO_TABS).world.shop;
    assert Duplicates(s.orders[0], s.orders[1]);
  }

  // ── A late step to payment ─────────────────────────────────────────────

  const READ := ReadStatus(0, AwaitingPayment, PROCEED_NOTE, None)

  const WRITE := Writing(0, Draft, AwaitingPayment, PROCEED_NOTE, None, false)

  const TIMEOUT := TimerStep(FirstExpiry(0), true, true, 0)

  const LATE_READY: seq<Action> := CHECKED_OUT + [READ] + [Whole(TickStep(900_000))] + [Whole(TIMEOUT)] + [Proceed(0, 0)]

  lemma CapMoved(k: MoveKind)
    requires QuantityOk(k, 1)
    ensures MovedLines(BOOKED, k, [CAP], 0) == Applied(BOOKED, k, "cap", 1, Some(0))
  {
    assert [CAP][..0] == [];
    assert MovedLines(BOOKED, k, [], 0) == BOOKED;
  }

  lemma DraftCancelled(s: Shop)
    requires s.orders == [DRAFT] && s.book == BOOKED
    ensures var s' := Transitioned(s, 0, Cancelled, "Reservation expired — payment timeout", None).shop;
            && |s'.orders| == 1 && s'.orders[0].status == Cancelled && s'.orders[0].lines == [CAP]
            && s'.book.rows == map["cap" := Stock(1, 0, 0)]
  {
    CapMoved(OrderCancelled);
  }

  lemma DraftTimesOut(w: World)
    requires w == Drafted().(shop := Drafted().shop.(now := 900_000))
    ensures var s := Next(w, TIMEOUT).shop;
            && |s.orders| == 1 && s.orders[0].status == Cancelled && s.orders[0].lines == [CAP]
            && s.book.rows == map["cap" := Stock(1, 0, 0)]
  {
    DraftCancelled(Dropped(w, FirstExpiry(0)).shop);
  }

  lemma WriteLands(w: World)
    requires |w.shop.orders| == 1 && w.shop.orders[0].lines == [CAP]
    ensures var s := Acted(System(w, [WRITE]), Proceed(0, 0)).world.shop;
            && |s.orders| == 1 && s.orders[0].status == AwaitingPayment && s.orders[0].lines == [CAP] && s.book == w.shop.book
  {
  }

  /** The timer cancels the draft between the read and the write of readyForPayment: the order is open again, with nothing reserved for it. */
  lemma LateReady()
    ensures var s := ActedAll(Begun(), LATE_READY).world.shop;
            && |s.orders| == 1 && s.orders[0].status == AwaitingPayment && s.orders[0].lines == [CAP]
            && s.book.rows == map["cap" := Stock(1, 0, 0)]
  {
    var due := Drafted().(shop := Drafted().shop.(now := 900_000));
    CheckedOut();
    DraftTimesOut(due);
    ActedOn(Begun(), CHECKED_OUT, READ);
    ActedOn(Begun(), CHECKED_OUT + [READ], Whole(TickStep(900_000)));
    assert ActedAll(Begun(), CHECKED_OUT + [READ] + [Whole(TickStep(900_000))]) == System(due, [WRITE]);
    ActedOn(Begun(), CHECKED_OUT + [READ] + [Whole(TickStep(900_000))], Whole(TIMEOUT));
    ActedOn(Begun(), CHECKED_OUT + [READ] + [Whole(TickStep(900_000))] + [Whole(TIMEOUT)], Proceed(0, 0));
    WriteLands(Next(due, TIMEOUT));
  }

  // ── A late rebuild ─────────────────────────────────────────────────────

  const FULLER := Cart("c", [CAP.(quantity := 2)])

  const LOOK_FULLER := LookUp(Some(FULLER), NO_PROMOTION, true)

  const REBUILD := Rebuilding(FULLER, NO_PROMOTION, true, 0)

  const LATE_REBUILD: seq<Action> := ToPay(CHECKED_OUT + [LOOK_FULLER]) + [Proceed(0, 0)] + [Whole(WebhookStep("pi", false))]

  lemma FullerIsLooked()
    ensures LookedUp(Drafted().shop, FULLER, NO_PROMOTION, true) == REBUILD
  {
    assert [DRAFT][..0] == [] && FindOpen([DRAFT], "c") == Some(0);
    assert CAP in multiset([CAP]) && CAP !in multiset(FULLER.lines);
  }

  lemma RebuildLands()
    ensures var sys := Acted(System(Held(), [REBUILD]), Proceed(0, 0));
            && |sys.world.shop.orders| == 1 && sys.world.shop.orders[0].status == Cancelled && Buried(sys.world.shop.orders[0])
            && sys.world.stripe == Held().stripe
  {
    var s := Acted(System(Held(), [REBUILD]), Proceed(0, 0)).world.shop;
    LastRowDecides(SOLD.history, HistoryRow(Some(AwaitingPayment), Cancelled, REBUILT_NOTE, None));
    RebuiltNoteIsNoTimeout();
    assert s.orders[0].history == SOLD.history + [HistoryRow(Some(AwaitingPayment), Cancelled, REBUILT_NOTE, None)];
  }

  lemma WebhookRefused(w: World)
    requires |w.shop.orders| == 1 && w.shop.orders[0].status == Cancelled && Buried(w.shop.orders[0]) && w.stripe == Held().stripe
    ensures var w' := Next(w, WebhookStep("pi", false));
            w'.shop == w.shop && w'.stripe == w.stripe && ForIntent("pi") in w'.ledger && !Payable(w'.shop, 0)
  {
  }

  /**
   * The basket comes back changed while its order is unpaid; before the order is
   * cancelled for it, the customer pays. The cancellation goes through, and the
   * webhook for the money finds an order it cannot pay.
   */
  lemma LateRebuild()
    ensures var w := ActedAll(Begun(), LATE_REBUILD).world;
            && |w.shop.orders| == 1 && w.shop.orders[0].status == Cancelled && !Payable(w.shop, 0)
            && w.stripe == Held().stripe && ForIntent("pi") in w.ledger
  {
    var paid := ToPay(CHECKED_OUT + [LOOK_FULLER]);
    CheckedOut();
    FullerIsLooked();
    ActedOn(Begun(), CHECKED_OUT, LOOK_FULLER);
    ThenPays(Begun(), CHECKED_OUT + [LOOK_FULLER], [REBUILD]);
    RebuildLands();
    ActedOn(Begun(), paid, Proceed(0, 0));
    ActedOn(Begun(), paid + [Proceed(0, 0)], Whole(WebhookStep("pi", false)));
    WebhookRefused(Acted(System(Held(), [REBUILD]), Proceed(0, 0)).world);
  }

  // ── A late resumption ──────────────────────────────────────────────────

  const TEN_OFF := Pricing(0, 0, 200, Some("TEN"))

  const LOOK_TEN := LookUp(Some(BASKET), TEN_OFF, true)

  const RESUME := Resuming(BASKET, TEN_OFF, 0)

  const LATE_RESUME: seq<Action> := ToPay(CHECKED_OUT + [LOOK_TEN]) + [Whole(WebhookStep("pi", false))] + [Proceed(0, 0)]

  const CONFIRMED := HistoryRow(Some(AwaitingPayment), Paid, "Payment confirmed", None)

  lemma BasketIsLooked()
    ensures LookedUp(Drafted().shop, BASKET, TEN_OFF, true) == RESUME
  {
    assert [DRAFT][..0] == [] && FindOpen([DRAFT], "c") == Some(0);
    assert DRAFT.lines == BASKET.lines;
  }

  /** The webhook pays the order it finds waiting, whatever it costs by now. */
  lemma WebhookPays(w: World)
    requires |w.shop.orders| == 1 && w.shop.orders[0].status == AwaitingPayment && w.ledger == map[] && w.stripe == Held().stripe
    requires w.shop.orders[0].coupon.None?
    ensures var w', o := Next(w, WebhookStep("pi", false)), w.shop.orders[0];
            && w'.shop.orders == [o.(status := Paid, history := o.history + [CONFIRMED], paymentIntent := Some("pi"))]
            && w'.shop.couponUses == w.shop.couponUses
            && w'.ledger == map[ForIntent("pi") := ChargeRow(0, "pi", 2000)]
  {
    var linked := Linked(w.shop, 0, "pi");
    assert Confirmed(w.shop, 0, "pi") == Transitioned(linked, 0, Paid, "Payment confirmed", None);
  }

  lemma HistoryPaid()
    ensures PaidRows(SOLD.history + [CONFIRMED]) == 1
  {
    HistoryOfAppend([], DRAFT.history[0]);
    assert DRAFT.history == [] + [DRAFT.history[0]];
    HistoryOfAppend(DRAFT.history, SOLD.history[1]);
    HistoryOfAppend(SOLD.history, CONFIRMED);
  }

  lemma Uncounted(s: Shop)
    requires |s.orders| == 1 && s.orders[0].coupon == Some("TEN") && s.orders[0].history == SOLD.history + [CONFIRMED]
    requires s.couponUses == multiset{}
    ensures !CountsOk(s)
  {
    HistoryPaid();
    assert s.orders == [] + [s.orders[0]];
    TallyOfAppend([], s.orders[0], RedeemedBy("TEN"));
    assert !RedemptionOk(s, "TEN");
  }

  lemma ResumeLands(w: World)
    requires |w.shop.orders| == 1
    ensures var s, o := Acted(System(w, [RESUME]), Proceed(0, 0)).world.shop, w.shop.orders[0];
            && |s.orders| == 1 && s.orders[0].status == o.status && s.orders[0].history == o.history
            && s.orders[0].coupon == Some("TEN") && s.couponUses == w.shop.couponUses
  {
  }

  /** A checkout that looked the order up before it was paid resumes it with a coupon after: a paid order carries a coupon nobody has counted. */
  lemma LateResume()
    ensures var s := ActedAll(Begun(), LATE_RESUME).world.shop;
            && |s.orders| == 1 && s.orders[0].status == Paid && s.orders[0].coupon == Some("TEN") && s.couponUses == multiset{}
            && !CountsOk(s)
  {
    var toPay := ToPay(CHECKED_OUT + [LOOK_TEN]);
    CheckedOut();
    BasketIsLooked();
    ActedOn(Begun(), CHECKED_OUT, LOOK_TEN);
    ThenPays(Begun(), CHECKED_OUT + [LOOK_TEN], [RESUME]);
    ActedOn(Begun(), toPay, Whole(WebhookStep("pi", false)));
    WebhookPays(Held());
    ActedOn(Begun(), toPay + [Whole(WebhookStep("pi", false))], Proceed(0, 0));
    ResumeLands(Next(Held(), WebhookStep("pi", false)));
    Uncounted(ActedAll(Begun(), LATE_RESUME).world.shop);
  }

  // ── Shipping chosen again after paying ─────────────────────────────────

  const RESHIP := ShippingStep(0, Some(Quote(Some("courier"), 500)))

  const RESHIPPED: seq<Action> := ToPay(CHECKED_OUT) + [Whole(RESHIP)] + [Whole(WebhookStep("pi", false))]

  /** Shipping added between the payment and its webhook: the order is paid, for less than it costs. */
  lemma PaidTooLittle()
    ensures var w := ActedAll(Begun(), RESHIPPED).world;
            && |w.shop.orders| == 1 && w.shop.orders[0].status == Paid && w.shop.orders[0].money.total == 2500
            && w.ledger == map[ForIntent("pi") := ChargeRow(0, "pi", 2000)]
  {
    var paid := ToPay(CHECKED_OUT);
    CheckedOut();
    ThenPays(Begun(), CHECKED_OUT, []);
    ActedOn(Begun(), paid, Whole(RESHIP));
    var dearer := Next(Held(), RESHIP);
    assert |dearer.shop.orders| == 1 && dearer.shop.orders[0] == SOLD.(shippingMethod := Some("courier"), money := Money(2000, 0, 0, 0, 500, 2500));
    WebhookPays(dearer);
    ActedOn(Begun(), paid + [Whole(RESHIP)], Whole(WebhookStep("pi", false)));
  }

  // ── A fuller basket after paying ───────────────────────────────────────

  const RESUMED: seq<Action> := ToPay(CHECKED_OUT) + [Whole(InitiateStep(Some(FULLER), NO_PROMOTION, true, 0))]

  /** The basket comes back with a second cap once a payment was started: the order shows the price of two and holds one. */
  lemma PricedForTwo()
    ensures var s := ActedAll(Begun(), RESUMED).world.shop;
            && |s.orders| == 1 && s.orders[0].lines == [CAP] && s.orders[0].money.subtotal == 4000 && !SubtotalOk(s.orders[0])
  {
    CheckedOut();
    ThenPays(Begun(), CHECKED_OUT, []);
    ActedOn(Begun(), ToPay(CHECKED_OUT), Whole(InitiateStep(Some(FULLER), NO_PROMOTION, true, 0)));
    assert [SOLD][..0] == [] && FindOpen([SOLD], "c") == Some(0);
    assert FULLER.lines[..0] == [] && Subtotal(FULLER.lines) == 4000;
    assert [CAP][..0] == [] && Subtotal([CAP]) == 2000;
  }

  // ── Two settlements ────────────────────────────────────────────────────

  const LEDGERED := WebhookStep("pi", true)

  const LINK := Linking(0, "pi", false)

  const WALK := Walking(0, false)

  const PAY_ROW := Writing(0, AwaitingPayment, Paid, "Payment confirmed", None, false)

  const BOTH_READ: seq<Action> :=
    ToPay(CHECKED_OUT) + [Whole(LEDGERED)] + [Confirm(0, "pi")] + [Confirm(0, "pi")] + [Proceed(0, 0)] + [Proceed(1, 0)]

  const TWO_SETTLEMENTS: seq<Action> := BOTH_READ + [Proceed(0, 0)] + [Proceed(1, 0)] + [Proceed(0, 0)] + [Proceed(1, 0)]

  function Ledgered(jobs: map<JobKey, nat>): World {
    Held().(shop := Held().shop.(jobs := jobs), ledger := map[ForIntent("pi") := ChargeRow(0, "pi", 2000)])
  }

  const LATER_JOB: map<JobKey, nat> := map[ExtendedExpiry(0, 900_000) := 901_000]

  lemma Links()
    ensures Carried(Ledgered(JOBS), LINK, 0) == (Ledgered(LATER_JOB), WALK)
    ensures Carried(Ledgered(LATER_JOB), LINK, 0) == (Ledgered(LATER_JOB), WALK)
    ensures Carried(Ledgered(LATER_JOB), WALK, 0) == (Ledgered(LATER_JOB), PAY_ROW)
  {
    assert JOBS - {FirstExpiry(0)} == LATER_JOB;
    assert LATER_JOB - {FirstExpiry(0)} == LATER_JOB;
    assert [SOLD][0 := SOLD] == [SOLD];
  }

  lemma LedgerWritten()
    ensures Next(Held(), LEDGERED) == Ledgered(JOBS)
  {
  }

  lemma ConfirmBegins(calls: seq<Call>)
    ensures Acted(System(Ledgered(JOBS), calls), Confirm(0, "pi")) == System(Ledgered(JOBS), calls + [LINK])
  {
  }

  lemma BothBegin()
    ensures ActedAll(Begun(), ToPay(CHECKED_OUT) + [Whole(LEDGERED)] + [Confirm(0, "pi")] + [Confirm(0, "pi")])
         == System(Ledgered(JOBS), [LINK, LINK])
  {
    var paid := ToPay(CHECKED_OUT);
    CheckedOut();
    ThenPays(Begun(), CHECKED_OUT, []);
    LedgerWritten();
    ConfirmBegins([]);
    ConfirmBegins([] + [LINK]);
    assert [] + [LINK] + [LINK] == [LINK, LINK];
    ActedOn(Begun(), paid, Whole(LEDGERED));
    ActedOn(Begun(), paid + [Whole(LEDGERED)], Confirm(0, "pi"));
    ActedOn(Begun(), paid + [Whole(LEDGERED)] + [Confirm(0, "pi")], Confirm(0, "pi"));
  }

  lemma BothRead()
    ensures ActedAll(Begun(), BOTH_READ + [Proceed(0, 0)] + [Proceed(1, 0)]) == System(Ledgered(LATER_JOB), [PAY_ROW, PAY_ROW])
  {
    var begun := ToPay(CHECKED_OUT) + [Whole(LEDGERED)] + [Confirm(0, "pi")] + [Confirm(0, "pi")];
    BothBegin();
    Links();
    ActedOn(Begun(), begun, Proceed(0, 0));
    ActedOn(Begun(), begun + [Proceed(0, 0)], Proceed(1, 0));
    ActedOn(Begun(), BOTH_READ, Proceed(0, 0));
    ActedOn(Begun(), BOTH_READ + [Proceed(0, 0)], Proceed(1, 0));
  }

  lemma OnePays(w: World, calls: seq<Call>, n: nat)
    requires n < |calls| && calls[n] == PAY_ROW && |w.shop.orders| == 1 && w.shop.orders[0].lines == [CAP] && w.shop.orders[0].coupon.None?
    requires "cap" in w.shop.book.rows
    ensures var sys, o := Acted(System(w, calls), Proceed(n, 0)), w.shop.orders[0];
            && sys.calls == calls[n := Over]
            && sys.world.shop.orders == [o.(status := Paid, history := o.history + [CONFIRMED])]
            && sys.world.shop.completions == w.shop.completions + multiset{0}
            && sys.world.shop.book.rows == w.shop.book.rows["cap" := Moved(w.shop.book.rows["cap"], OrderPaid, 1)]
  {
    assert [CAP][..0] == [] && MovedLines(w.shop.book, OrderPaid, [], 0) == w.shop.book;
    assert MovedLines(w.shop.book, OrderPaid, [CAP], 0) == Applied(w.shop.book, OrderPaid, "cap", 1, Some(0));
  }

  /** What the two writes leave of one order for one cap. */
  lemma BothPay()
    ensures var once := Acted(System(Ledgered(LATER_JOB), [PAY_ROW, PAY_ROW]), Proceed(0, 0));
            var s := Acted(once, Proceed(1, 0)).world.shop;
            && |s.orders| == 1 && s.orders[0].history == SOLD.history + [CONFIRMED] + [CONFIRMED]
            && s.completions == multiset{0, 0} && s.book.rows == map["cap" := Stock(0, 0, 2)]
  {
    OnePays(Ledgered(LATER_JOB), [PAY_ROW, PAY_ROW], 0);
    var once := Acted(System(Ledgered(LATER_JOB), [PAY_ROW, PAY_ROW]), Proceed(0, 0));
    OnePays(once.world, once.calls, 1);
  }

  /**
   * A webhook and a reconciliation settle one payment at once: both read the
   * order awaiting payment, both write it paid. It is counted twice, and the
   * cap it holds is committed twice.
   */
  lemma TwoSettlements()
    ensures var s := ActedAll(Begun(), TWO_SETTLEMENTS).world.shop;
            && |s.orders| == 1 && PaidRows(s.orders[0].history) == 2 == s.completions[0]
            && s.book.rows == map["cap" := Stock(0, 0, 2)]
  {
    BothRead();
    BothPay();
    ActedOn(Begun(), BOTH_READ + [Proceed(0, 0)] + [Proceed(1, 0)], Proceed(0, 0));
    ActedOn(Begun(), BOTH_READ + [Proceed(0, 0)] + [Proceed(1, 0)] + [Proceed(0, 0)], Proceed(1, 0));
    HistoryPaid();
    HistoryOfAppend(SOLD.history + [CONFIRMED], CONFIRMED);
  }
}
