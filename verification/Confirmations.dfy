/**
 * Payment confirmations taken apart: what two of them in flight can do to one
 * order, and what every interleaving counts.
 */
module Confirmations {
  import opened Common
  import opened Inventory
  import opened Orders
  import opened OrderInvariants
  import opened Payments
  import opened Lifecycle
  import opened Evolution
  import opened Interleavings

  ghost predicate EachPaidForGood(s: Shop) {
    forall id :: 0 <= id < |s.orders| ==> PaidForGood(s.orders[id])
  }

  /** The history row a call's next database call writes, if it writes one. */
  function WrittenRow(s: Shop, call: Call): (r: Option<HistoryRow>)
    ensures r.Some? ==> (call.Rebuilding? || call.Restoring? || call.Writing?) && call.id < |s.orders| && r.value.to !in {Draft, Pending}
  {
    match call
    case Rebuilding(_, _, _, id) =>
      if id < |s.orders| && Cancelled in AllowedFrom(s.orders[id].status)
      then Some(HistoryRow(Some(s.orders[id].status), Cancelled, REBUILT_NOTE, None)) else None
    case Restoring(id, _) => if id < |s.orders| && Reinstated(s, id).Ok? then Some(RESTORED) else None
    case Writing(_, prev, to, note, admin, _) => if Valid(s, call) then Some(HistoryRow(Some(prev), to, note, admin)) else None
    case _ => None
  }

  /** That call appends the row to its order and moves it to the row's status, counting a payment. */
  lemma CarriedWrites(w: World, call: Call, lag: nat)
    ensures var s, s', row := w.shop, Carried(w, call, lag).0.shop, WrittenRow(w.shop, call);
            if row.Some? then
              && s'.orders == s.orders[call.id := s.orders[call.id].(status := row.value.to, history := s.orders[call.id].history + [row.value])]
              && s'.completions == if row.value.to == Paid then s.completions + multiset{call.id} else s.completions
            else
              && |s.orders| <= |s'.orders| && s'.completions == s.completions
              && (forall j :: 0 <= j < |s.orders| ==>
                    s'.orders[j].status == s.orders[j].status && s'.orders[j].history == s.orders[j].history)
              && (forall j :: |s.orders| <= j < |s'.orders| ==> IsNew(s'.orders[j]))
  {
  }

  /** The row puts the order where a payment would move it, or pays it. */
  predicate PaysOrReopens(row: HistoryRow) {
    row.to == Paid || row.to == AwaitingPayment || ByTimeout([row])
  }

  /** A write that pays or reopens an order lands on one that has been paid since the call read it. */
  predicate PaysAgain(s: Shop, call: Call) {
    var row := WrittenRow(s, call);
    row.Some? && PaidRows(s.orders[call.id].history) == 1 && PaysOrReopens(row.value)
  }

  predicate PaysAgainIn(sys: System, action: Action) {
    action.Proceed? && action.call < |sys.calls| && PaysAgain(sys.world.shop, sys.calls[action.call])
  }

  lemma LastRowDecides(h: seq<HistoryRow>, row: HistoryRow)
    ensures ByTimeout(h + [row]) <==> ByTimeout([row])
  {
  }

  /** One order's history grows by one row. */
  lemma AppendedPaidForGoodIff(o: Order, o': Order, row: HistoryRow)
    requires PaidForGood(o) && o'.history == o.history + [row] && o'.status == row.to && row.to !in {Draft, Pending}
    ensures PaidForGood(o') <==> !(PaidRows(o.history) == 1 && PaysOrReopens(row))
  {
    HistoryOfAppend(o.history, row);
    LastRowDecides(o.history, row);
  }

  lemma CarriedPaidForGoodIff(w: World, call: Call, lag: nat)
    requires EachPaidForGood(w.shop)
    ensures EachPaidForGood(Carried(w, call, lag).0.shop) <==> !PaysAgain(w.shop, call)
  {
    var s, s', row := w.shop, Carried(w, call, lag).0.shop, WrittenRow(w.shop, call);
    CarriedWrites(w, call, lag);
    if row.Some? {
      AppendedPaidForGoodIff(s.orders[call.id], s'.orders[call.id], row.value);
    } else {
      forall j | |s.orders| <= j < |s'.orders| ensures PaidForGood(s'.orders[j]) { NewOrderHistory(s'.orders[j]); }
    }
  }

  lemma NextPaidForGood(w: World, step: Step)
    requires EachPaidForGood(w.shop)
    ensures EachPaidForGood(Next(w, step).shop)
  {
    NextEvolved(w, step);
    var s, s' := w.shop, Next(w, step).shop;
    if ResumedBy(s, step).None? {
      forall id | 0 <= id < |s'.orders| ensures PaidForGood(s'.orders[id]) {
        if id < |s.orders| { assert Evolves(s.orders[id], s'.orders[id]); } else { NewOrderHistory(s'.orders[id]); }
      }
    }
  }

  // ── Completions ────────────────────────────────────────────────────────

  lemma CarriedCompletions(w: World, call: Call, lag: nat)
    requires CompletionsOk(w.shop)
    ensures CompletionsOk(Carried(w, call, lag).0.shop)
  {
    var s, s', row := w.shop, Carried(w, call, lag).0.shop, WrittenRow(w.shop, call);
    CarriedWrites(w, call, lag);
    if row.Some? { HistoryOfAppend(s.orders[call.id].history, row.value); }
    forall j: nat ensures CompletionOk(s', j) {
      assert CompletionOk(s, j);
      if |s.orders| <= j < |s'.orders| { NewOrderHistory(s'.orders[j]); }
    }
  }

  lemma NextCompletions(w: World, step: Step)
    requires CompletionsOk(w.shop)
    ensures CompletionsOk(Next(w, step).shop)
  {
    NextEvolved(w, step);
    if ResumedBy(w.shop, step).Some? {
      forall j: nat ensures CompletionOk(Next(w, step).shop, j) { assert CompletionOk(w.shop, j); }
    }
  }

  // ── Over every interleaving ────────────────────────────────────────────

  ghost predicate PaidOnceAlways(sys: System, actions: seq<Action>) {
    && EachPaidForGood(ActedAll(sys, actions).world.shop)
    && (actions != [] ==> PaidOnceAlways(sys, actions[..|actions| - 1]))
  }

  ghost predicate NeverPaysAgain(sys: System, actions: seq<Action>) {
    actions != [] ==>
      && NeverPaysAgain(sys, actions[..|actions| - 1])
      && !PaysAgainIn(ActedAll(sys, actions[..|actions| - 1]), actions[|actions| - 1])
  }

  lemma ActedPaidForGoodIff(sys: System, action: Action)
    requires EachPaidForGood(sys.world.shop)
    ensures EachPaidForGood(Acted(sys, action).world.shop) <==> !PaysAgainIn(sys, action)
  {
    match action
    case Whole(step) => NextPaidForGood(sys.world, step);
    case Proceed(n, lag) => if n < |sys.calls| { CarriedPaidForGoodIff(sys.world, sys.calls[n], lag); }
    case _ =>
  }

  /**
   * Whatever is in flight, every order is paid at most once and then stays out
   * of a payment's reach, exactly when no write that pays or reopens an order
   * lands on one that has been paid.
   */
  lemma {:induction false} PaidOnceAlwaysIff(sys: System, actions: seq<Action>)
    requires EachPaidForGood(sys.world.shop)
    ensures PaidOnceAlways(sys, actions) <==> NeverPaysAgain(sys, actions)
  {
    if actions != [] {
      var front, last := actions[..|actions| - 1], actions[|actions| - 1];
      PaidOnceAlwaysIff(sys, front);
      if PaidOnceAlways(sys, front) { ActedPaidForGoodIff(ActedAll(sys, front), last); }
    }
  }

  /** In every interleaving, stale or not, lifetime statistics count an order once for each time it was paid. */
  lemma {:induction false} CompletionsAlways(sys: System, actions: seq<Action>)
    requires CompletionsOk(sys.world.shop)
    ensures CompletionsOk(ActedAll(sys, actions).world.shop)
  {
    if actions != [] {
      var before, last := ActedAll(sys, actions[..|actions| - 1]), actions[|actions| - 1];
      CompletionsAlways(sys, actions[..|actions| - 1]);
      match last
      case Whole(step) => NextCompletions(before.world, step);
      case Proceed(n, lag) => if n < |before.calls| { CarriedCompletions(before.world, before.calls[n], lag); }
      case _ =>
    }
  }

  // ── Restores ───────────────────────────────────────────────────────────

  predicate RestoresIn(sys: System, action: Action, id: nat) {
    && action.Proceed? && action.call < |sys.calls|
    && sys.calls[action.call].Restoring? && sys.calls[action.call].id == id
  }

  /** How many confirmations taken apart were about to restore the order. */
  function RestoredApart(sys: System, actions: seq<Action>, id: nat): nat {
    if actions == [] then 0
    else
      var front := actions[..|actions| - 1];
      RestoredApart(sys, front, id) + if RestoresIn(ActedAll(sys, front), actions[|actions| - 1], id) then 1 else 0
  }

  /** The order's surplus of restores over payments grows by `apart` at most; a new order has neither. */
  ghost predicate Surplus(s: Shop, s': Shop, id: nat, apart: nat)
    requires id < |s'.orders|
  {
    var h' := s'.orders[id].history;
    if id < |s.orders|
    then RestoreRows(h') + PaidRows(s.orders[id].history) <= RestoreRows(s.orders[id].history) + PaidRows(h') + apart
    else RestoreRows(h') == 0
  }

  lemma NextSurplus(w: World, step: Step, id: nat)
    requires id < |Next(w, step).shop.orders|
    ensures Surplus(w.shop, Next(w, step).shop, id, 0)
  {
    var s, s' := w.shop, Next(w, step).shop;
    NextEvolved(w, step);
    if ResumedBy(s, step).None? {
      if id < |s.orders| { assert Evolves(s.orders[id], s'.orders[id]); } else { NewOrderHistory(s'.orders[id]); }
    }
  }

  lemma CarriedSurplus(w: World, call: Call, lag: nat, id: nat)
    requires id < |Carried(w, call, lag).0.shop.orders|
    ensures Surplus(w.shop, Carried(w, call, lag).0.shop, id, if call.Restoring? && call.id == id then 1 else 0)
  {
    var s, s', row := w.shop, Carried(w, call, lag).0.shop, WrittenRow(w.shop, call);
    CarriedWrites(w, call, lag);
    if id >= |s.orders| { NewOrderHistory(s'.orders[id]); }
    if row.Some? && call.id == id { HistoryOfAppend(s.orders[id].history, row.value); }
  }

  lemma ActedSurplus(sys: System, action: Action, id: nat)
    requires id < |Acted(sys, action).world.shop.orders|
    ensures Surplus(sys.world.shop, Acted(sys, action).world.shop, id, if RestoresIn(sys, action, id) then 1 else 0)
  {
    match action
    case Whole(step) => NextSurplus(sys.world, step, id);
    case Proceed(n, lag) => if n < |sys.calls| { CarriedSurplus(sys.world, sys.calls[n], lag, id); }
    case _ =>
  }

  /** In every interleaving an order has no more restores than payments, but for those of confirmations that may have died halfway. */
  lemma {:induction false} RestoresAccounted(sys: System, actions: seq<Action>, id: nat)
    requires sys.world.shop.orders == [] && id < |ActedAll(sys, actions).world.shop.orders|
    ensures var h := ActedAll(sys, actions).world.shop.orders[id].history;
            RestoreRows(h) <= PaidRows(h) + RestoredApart(sys, actions, id)
  {
    if actions != [] {
      var front, last := actions[..|actions| - 1], actions[|actions| - 1];
      var before := ActedAll(sys, front);
      if id < |before.world.shop.orders| { RestoresAccounted(sys, front, id); }
      ActedSurplus(before, last, id);
    }
  }

  // ── Buried orders ──────────────────────────────────────────────────────

  predicate WritesIn(sys: System, action: Action, id: nat) {
    && action.Proceed? && action.call < |sys.calls|
    && WrittenRow(sys.world.shop, sys.calls[action.call]).Some? && sys.calls[action.call].id == id
  }

  predicate NeverWrites(sys: System, actions: seq<Action>, id: nat) {
    actions != [] ==>
      && NeverWrites(sys, actions[..|actions| - 1], id)
      && !WritesIn(ActedAll(sys, actions[..|actions| - 1]), actions[|actions| - 1], id)
  }

  /** An order cancelled by a person or by checkout stays so whatever arrives later, until a write already in flight lands on it. */
  lemma {:induction false} BuriedForGood(sys: System, actions: seq<Action>, id: nat)
    requires id < |sys.world.shop.orders| && Buried(sys.world.shop.orders[id]) && NeverWrites(sys, actions, id)
    ensures var s' := ActedAll(sys, actions).world.shop;
            && id < |s'.orders| && s'.orders[id].status == Cancelled && s'.orders[id].history == sys.world.shop.orders[id].history
  {
    if actions != [] {
      var before, last := ActedAll(sys, actions[..|actions| - 1]), actions[|actions| - 1];
      BuriedForGood(sys, actions[..|actions| - 1], id);
      match last
      case Whole(step) =>
        NextEvolved(before.world, step);
        if ResumedBy(before.world.shop, step).None? {
          assert Evolves(before.world.shop.orders[id], Next(before.world, step).shop.orders[id]);
        }
      case Proceed(n, lag) => if n < |before.calls| { CarriedWrites(before.world, before.calls[n], lag); }
      case _ =>
    }
  }
}
