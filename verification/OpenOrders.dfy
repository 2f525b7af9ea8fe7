/**
 * One open order per cart: two of them would reserve the cart's stock twice.
 * Nothing but checkout's own lookup prevents it.
 */
module OpenOrders {
  import opened Common
  import opened Inventory
  import opened Orders
  import opened Payments
  import opened Lifecycle
  import opened Evolution
  import opened Interleavings

  /** Two open orders built from one cart. */
  predicate Duplicates(a: Order, b: Order) {
    a.cartToken.Some? && a.cartToken == b.cartToken && Open(a.status) && Open(b.status)
  }

  ghost predicate OneOpenPerCart(s: Shop) {
    forall i, j :: 0 <= i < j < |s.orders| ==> !Duplicates(s.orders[i], s.orders[j])
  }

  /** Nothing creates a pending order or moves one to it. */
  ghost predicate NoPending(s: Shop) {
    forall i :: 0 <= i < |s.orders| ==> s.orders[i].status != Pending
  }

  /** No order is reopened or handed to another cart, and new ones belong to none. */
  ghost predicate NoneOpened(s: Shop, s': Shop) {
    && |s.orders| <= |s'.orders|
    && (forall j :: 0 <= j < |s.orders| ==> StaysClosed(s.orders[j], s'.orders[j]))
    && (forall j :: |s.orders| <= j < |s'.orders| ==> s'.orders[j].cartToken.None? && s'.orders[j].status != Pending)
  }

  predicate StaysClosed(o: Order, o': Order) {
    o'.cartToken == o.cartToken && (Open(o'.status) ==> Open(o.status)) && o'.status != Pending
  }

  lemma NoneOpenedKeeps(s: Shop, s': Shop)
    requires NoneOpened(s, s') && OneOpenPerCart(s)
    ensures OneOpenPerCart(s') && NoPending(s')
  {
    forall i, j | 0 <= i < j < |s'.orders| ensures !Duplicates(s'.orders[i], s'.orders[j]) {
      if j < |s.orders| {
        assert !Duplicates(s.orders[i], s.orders[j]) && StaysClosed(s.orders[i], s'.orders[i]) && StaysClosed(s.orders[j], s'.orders[j]);
      }
    }
    forall j | 0 <= j < |s'.orders| ensures s'.orders[j].status != Pending {
      if j < |s.orders| { assert StaysClosed(s.orders[j], s'.orders[j]); }
    }
  }

  lemma EvolvedOpensNone(s: Shop, s': Shop)
    requires NoPending(s) && Evolved(s, s') && forall j :: |s.orders| <= j < |s'.orders| ==> s'.orders[j].cartToken.None?
    ensures NoneOpened(s, s')
  {
    forall j | 0 <= j < |s.orders| ensures StaysClosed(s.orders[j], s'.orders[j]) { assert Evolves(s.orders[j], s'.orders[j]); }
  }

  lemma NextOpensNone(w: World, step: Step)
    requires NoPending(w.shop) && !step.InitiateStep?
    ensures NoneOpened(w.shop, Next(w, step).shop)
  {
    NextEvolved(w, step);
    EvolvedOpensNone(w.shop, Next(w, step).shop);
  }

  // ── Checkout ───────────────────────────────────────────────────────────

  /** A new order is the cart's only open one exactly when a lookup at this moment would find none. */
  lemma CreatedOneOpenIff(s: Shop, o: Order)
    requires OneOpenPerCart(s) && NoPending(s) && Created(s, o).Ok? && Open(o.status) && o.cartToken.Some?
    ensures OneOpenPerCart(Created(s, o).value) <==> FindOpen(s.orders, o.cartToken.value).None?
    ensures NoPending(Created(s, o).value)
  {
    var s' := Created(s, o).value;
    var found := FindOpen(s.orders, o.cartToken.value);
    if found.Some? {
      assert Duplicates(s'.orders[found.value], s'.orders[|s.orders|]);
    } else {
      forall i, j | 0 <= i < j < |s'.orders| ensures !Duplicates(s'.orders[i], s'.orders[j]) {
        if j < |s.orders| { assert !Duplicates(s.orders[i], s.orders[j]); }
      }
    }
  }

  lemma DraftPlacedOneOpen(s: Shop, c: Cart, p: Pricing, pricesOk: bool, lag: nat)
    requires OneOpenPerCart(s) && NoPending(s) && FindOpen(s.orders, c.token).None?
    ensures OneOpenPerCart(DraftPlaced(s, c, p, pricesOk, lag).shop) && NoPending(DraftPlaced(s, c, p, pricesOk, lag).shop)
  {
    var o := NewDraft(s, c, p);
    if pricesOk && Created(s, o).Ok? {
      CreatedOneOpenIff(s, o);
      assert DraftPlaced(s, c, p, pricesOk, lag).shop.orders == Created(s, o).value.orders;
      forall i, j | 0 <= i < j < |s.orders| + 1
        ensures !Duplicates(DraftPlaced(s, c, p, pricesOk, lag).shop.orders[i], DraftPlaced(s, c, p, pricesOk, lag).shop.orders[j])
      {
        assert !Duplicates(Created(s, o).value.orders[i], Created(s, o).value.orders[j]);
      }
    }
  }

  /** Cancelling the order a lookup found leaves the cart with none. */
  lemma RebuiltFindsNone(s: Shop, token: string, id: nat)
    requires OneOpenPerCart(s) && FindOpen(s.orders, token) == Some(id)
    ensures FindOpen(Transitioned(s, id, Cancelled, REBUILT_NOTE, None).shop.orders, token).None?
  {
    var s' := Transitioned(s, id, Cancelled, REBUILT_NOTE, None).shop;
    forall i | 0 <= i < |s'.orders| ensures !(s'.orders[i].cartToken == Some(token) && Open(s'.orders[i].status)) {
      if i < id { assert !Duplicates(s.orders[i], s.orders[id]); }
      if id < i { assert !Duplicates(s.orders[id], s.orders[i]); }
    }
  }

  /** Taken as a whole, checkout's first step never duplicates. */
  lemma InitiatedOneOpen(s: Shop, cart: Option<Cart>, p: Pricing, pricesOk: bool, lag: nat)
    requires OneOpenPerCart(s) && NoPending(s)
    ensures OneOpenPerCart(Initiated(s, cart, p, pricesOk, lag).shop) && NoPending(Initiated(s, cart, p, pricesOk, lag).shop)
  {
    if cart.Some? && cart.value.lines != [] {
      var c := cart.value;
      var found := FindOpen(s.orders, c.token);
      if found.None? {
        DraftPlacedOneOpen(s, c, p, pricesOk, lag);
      } else if Outdated(s.orders[found.value], c.lines) {
        var s1 := Transitioned(s, found.value, Cancelled, REBUILT_NOTE, None).shop;
        TransitionedEvolved(s, found.value, Cancelled, REBUILT_NOTE, None);
        EvolvedOpensNone(s, s1);
        NoneOpenedKeeps(s, s1);
        RebuiltFindsNone(s, c.token, found.value);
        DraftPlacedOneOpen(s1, c, p, pricesOk, lag);
      } else {
        NoneOpenedKeeps(s, Resumed(s, found.value, c.lines, p));
      }
    }
  }

  // ── Interleaved ────────────────────────────────────────────────────────

  /** A creation commits although the lookup behind it, which found nothing, would now find an open order. */
  predicate StaleCommit(s: Shop, call: Call) {
    && call.Building? && call.pricesOk && Created(s, NewDraft(s, call.cart, call.pricing)).Ok?
    && FindOpen(s.orders, call.cart.token).Some?
  }

  /** A status write reopens an order that was closed after its status was read, beside another open order of its cart. */
  ghost predicate Reopens(s: Shop, call: Call) {
    && Valid(s, call) && Open(call.to) && !Open(s.orders[call.id].status) && s.orders[call.id].cartToken.Some?
    && exists j :: 0 <= j < |s.orders| && j != call.id && IsOpenOf(s.orders[j], s.orders[call.id].cartToken)
  }

  /** A restore reopens an order beside another open order of its cart. */
  ghost predicate RestoresBeside(s: Shop, call: Call) {
    && call.Restoring? && call.id < |s.orders| && Reinstated(s, call.id).Ok?
    && !Open(s.orders[call.id].status) && s.orders[call.id].cartToken.Some?
    && exists j :: 0 <= j < |s.orders| && j != call.id && IsOpenOf(s.orders[j], s.orders[call.id].cartToken)
  }

  ghost predicate Duplicating(s: Shop, call: Call) {
    StaleCommit(s, call) || Reopens(s, call) || RestoresBeside(s, call)
  }

  predicate IsOpenOf(o: Order, token: Option<string>) {
    o.cartToken == token && Open(o.status)
  }

  ghost predicate Clash(sys: System, action: Action) {
    && action.Proceed? && action.call < |sys.calls|
    && Duplicating(sys.world.shop, sys.calls[action.call])
  }

  /** One order's status is written: a duplicate appears exactly when that opens it beside another open order of its cart. */
  lemma ReopenedOneOpenIff(s: Shop, s': Shop, id: nat)
    requires OneOpenPerCart(s) && NoPending(s) && id < |s.orders| == |s'.orders| && s'.orders == s.orders[id := s'.orders[id]]
    requires s'.orders[id].cartToken == s.orders[id].cartToken && s'.orders[id].status != Pending
    ensures NoPending(s')
    ensures OneOpenPerCart(s') <==>
            !(&& Open(s'.orders[id].status) && !Open(s.orders[id].status) && s.orders[id].cartToken.Some?
              && exists j :: 0 <= j < |s.orders| && j != id && IsOpenOf(s.orders[j], s.orders[id].cartToken))
  {
    if Open(s'.orders[id].status) && !Open(s.orders[id].status) && s.orders[id].cartToken.Some?
       && exists j :: 0 <= j < |s.orders| && j != id && IsOpenOf(s.orders[j], s.orders[id].cartToken)
    {
      var j :| 0 <= j < |s.orders| && j != id && IsOpenOf(s.orders[j], s.orders[id].cartToken);
      assert Duplicates(s'.orders[if j < id then j else id], s'.orders[if j < id then id else j]);
    } else {
      forall i, j | 0 <= i < j < |s'.orders| ensures !Duplicates(s'.orders[i], s'.orders[j]) {
        assert !Duplicates(s.orders[i], s.orders[j]);
        if i == id { assert Duplicates(s'.orders[i], s'.orders[j]) ==> IsOpenOf(s.orders[j], s.orders[id].cartToken); }
        if j == id { assert Duplicates(s'.orders[i], s'.orders[j]) ==> IsOpenOf(s.orders[i], s.orders[id].cartToken); }
      }
    }
  }

  lemma ActedOneOpenIff(sys: System, action: Action)
    requires OneOpenPerCart(sys.world.shop) && NoPending(sys.world.shop)
    ensures var s' := Acted(sys, action).world.shop;
            NoPending(s') && (OneOpenPerCart(s') <==> !Clash(sys, action))
  {
    var w, s := sys.world, sys.world.shop;
    match action
    case Whole(step) =>
      if step.InitiateStep? {
        InitiatedOneOpen(s, step.cart, step.pricing, step.pricesOk, step.lag);
      } else {
        NextOpensNone(w, step);
        NoneOpenedKeeps(s, Next(w, step).shop);
      }
    case Proceed(n, lag) => if n < |sys.calls| { CarriedOneOpenIff(w, sys.calls[n], lag); }
    case _ =>
  }

  lemma QuietlyCarried(w: World, call: Call, lag: nat)
    requires NoPending(w.shop) && !call.Rebuilding? && !call.Building? && !call.Restoring? && !call.Writing?
    ensures NoneOpened(w.shop, Carried(w, call, lag).0.shop)
  {
  }

  lemma CarriedOneOpenIff(w: World, call: Call, lag: nat)
    requires OneOpenPerCart(w.shop) && NoPending(w.shop)
    ensures var s' := Carried(w, call, lag).0.shop; NoPending(s') && (OneOpenPerCart(s') <==> !Duplicating(w.shop, call))
  {
    if call.Building? {
      BuiltOneOpenIff(w, call, lag);
    } else if call.Rebuilding? || call.Restoring? || call.Writing? {
      WrittenOneOpenIff(w, call, lag);
    } else {
      QuietlyCarried(w, call, lag);
      NoneOpenedKeeps(w.shop, Carried(w, call, lag).0.shop);
    }
  }

  lemma BuiltOneOpenIff(w: World, call: Call, lag: nat)
    requires OneOpenPerCart(w.shop) && NoPending(w.shop) && call.Building?
    ensures var s' := Carried(w, call, lag).0.shop; NoPending(s') && (OneOpenPerCart(s') <==> !StaleCommit(w.shop, call))
  {
    var o := NewDraft(w.shop, call.cart, call.pricing);
    if call.pricesOk && Created(w.shop, o).Ok? { CreatedOneOpenIff(w.shop, o); }
  }

  lemma WrittenOneOpenIff(w: World, call: Call, lag: nat)
    requires OneOpenPerCart(w.shop) && NoPending(w.shop) && (call.Rebuilding? || call.Restoring? || call.Writing?)
    ensures var s' := Carried(w, call, lag).0.shop;
            NoPending(s') && (OneOpenPerCart(s') <==> !(Reopens(w.shop, call) || RestoresBeside(w.shop, call)))
  {
    var s, s' := w.shop, Carried(w, call, lag).0.shop;
    if s' != s { ReopenedOneOpenIff(s, s', call.id); }
  }

  ghost predicate OneOpenAlways(sys: System, actions: seq<Action>) {
    && OneOpenPerCart(ActedAll(sys, actions).world.shop)
    && (actions != [] ==> OneOpenAlways(sys, actions[..|actions| - 1]))
  }

  ghost predicate NeverClash(sys: System, actions: seq<Action>) {
    actions != [] ==>
      && NeverClash(sys, actions[..|actions| - 1])
      && !Clash(ActedAll(sys, actions[..|actions| - 1]), actions[|actions| - 1])
  }

  /**
   * Whatever is in flight, no cart ever has two open orders exactly when no
   * creation commits on a lookup that has gone stale, and no status write or
   * restore reopens an order beside the one that took its place.
   */
  lemma {:induction false} OneOpenAlwaysIff(sys: System, actions: seq<Action>)
    requires OneOpenPerCart(sys.world.shop) && NoPending(sys.world.shop)
    ensures OneOpenAlways(sys, actions) <==> NeverClash(sys, actions)
    ensures OneOpenAlways(sys, actions) ==> NoPending(ActedAll(sys, actions).world.shop)
  {
    if actions != [] {
      var front, last := actions[..|actions| - 1], actions[|actions| - 1];
      OneOpenAlwaysIff(sys, front);
      if OneOpenAlways(sys, front) { ActedOneOpenIff(ActedAll(sys, front), last); }
    }
  }
}
