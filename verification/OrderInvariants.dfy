/**
 * What every order operation keeps: stock buckets equal the sums over orders,
 * histories are chains of allowed transitions, payment counts once, and totals
 * add up.
 */
module OrderInvariants {
  import opened Common
  import opened Inventory
  import opened Orders

  // ── Sums over orders ───────────────────────────────────────────────────

  function Tally(orders: seq<Order>, f: Order -> nat): nat {
    if orders == [] then 0 else Tally(orders[..|orders| - 1], f) + f(orders[|orders| - 1])
  }

  lemma {:induction false} TallyOfUpdate(orders: seq<Order>, i: nat, o: Order, f: Order -> nat)
    requires i < |orders|
    ensures Tally(orders[i := o], f) == Tally(orders, f) - f(orders[i]) + f(o)
    ensures f(orders[i]) <= Tally(orders, f)
  {
    var n := |orders| - 1;
    if i < n {
      assert orders[i := o][..n] == orders[..n][i := o];
      TallyOfUpdate(orders[..n], i, o, f);
    } else {
      assert orders[i := o][..n] == orders[..n];
    }
  }

  lemma TallyOfAppend(orders: seq<Order>, o: Order, f: Order -> nat)
    ensures Tally(orders + [o], f) == Tally(orders, f) + f(o)
  {
    assert (orders + [o])[..|orders|] == orders;
  }

  function HeldBy(h: Hold, v: Variant): Order -> nat {
    (o: Order) => if HoldOf(o.status) == h then Demand(o.lines, v) else 0
  }

  // ── Stock ──────────────────────────────────────────────────────────────

  ghost predicate RowOk(opening: map<Variant, int>, s: Shop, v: Variant)
    requires v in s.book.rows && v in opening
  {
    && 0 <= s.book.rows[v].available
    && s.book.rows[v].reserved == Tally(s.orders, HeldBy(InReserved, v))
    && s.book.rows[v].committed == Tally(s.orders, HeldBy(InCommitted, v))
    && Units(s.book, v) == opening[v]
  }

  ghost predicate StockOk(opening: map<Variant, int>, s: Shop) {
    && Replays(opening, s.book)
    && forall v :: v in s.book.rows ==> RowOk(opening, s, v)
  }

  /** `n` when the status holds its units in bucket h, nothing otherwise. */
  function In(h: Hold, s: Status, n: nat): nat {
    if HoldOf(s) == h then n else 0
  }

  /**
   * One row under a transition chosen from `prev` while the order really is in
   * `current`: r and c are what the other orders hold, d is this order's demand.
   */
  lemma StaleRow(prev: Status, to: Status, current: Status, row: Stock, d: nat, r: nat, c: nat)
    requires to in AllowedFrom(prev) && 0 <= row.available
    requires row.reserved == r + In(InReserved, current, d) && row.committed == c + In(InCommitted, current, d)
    ensures var k := MoveFor(prev, to);
            var row', lost := if k.Some? then Moved(row, k.value, d) else row, if k.Some? then Overdraw(row, k.value, d) else 0;
            (0 <= row'.available && row'.reserved == r + In(InReserved, to, d) && row'.committed == c + In(InCommitted, to, d) && lost == 0)
            <==> HoldOf(prev) == HoldOf(current) || d == 0
  {
  }

  /** What the two sums become when one order changes status. */
  lemma TalliesOfUpdate(orders: seq<Order>, id: nat, o: Order, v: Variant)
    requires id < |orders| && o.lines == orders[id].lines
    ensures var d := Demand(o.lines, v);
            && In(InReserved, orders[id].status, d) <= Tally(orders, HeldBy(InReserved, v))
            && In(InCommitted, orders[id].status, d) <= Tally(orders, HeldBy(InCommitted, v))
            && Tally(orders[id := o], HeldBy(InReserved, v))
               == Tally(orders, HeldBy(InReserved, v)) - In(InReserved, orders[id].status, d) + In(InReserved, o.status, d)
            && Tally(orders[id := o], HeldBy(InCommitted, v))
               == Tally(orders, HeldBy(InCommitted, v)) - In(InCommitted, orders[id].status, d) + In(InCommitted, o.status, d)
  {
    TallyOfUpdate(orders, id, o, HeldBy(InReserved, v));
    TallyOfUpdate(orders, id, o, HeldBy(InCommitted, v));
  }

  /** One variant under a transition written from a status that may no longer be current. */
  lemma CommittedRow(opening: map<Variant, int>, s: Shop, id: nat, prev: Status, to: Status, note: string, admin: Option<string>, v: Variant)
    requires id < |s.orders| && to in AllowedFrom(prev)
    requires StockOk(opening, s) && v in s.book.rows
    ensures v in Committed(s, id, prev, to, note, admin).book.rows
    ensures RowOk(opening, Committed(s, id, prev, to, note, admin), v) <==>
            HoldOf(prev) == HoldOf(s.orders[id].status) || Demand(s.orders[id].lines, v) == 0
  {
    var s', o, row, d := Committed(s, id, prev, to, note, admin), s.orders[id], s.book.rows[v], Demand(s.orders[id].lines, v);
    assert RowOk(opening, s, v);
    TalliesOfUpdate(s.orders, id, s'.orders[id], v);
    var r, c := row.reserved - In(InReserved, o.status, d), row.committed - In(InCommitted, o.status, d);
    StaleRow(prev, to, o.status, row, d, r, c);
    CommittedStockRow(s, id, prev, to, note, admin, v);
    assert s'.orders == s.orders[id := s'.orders[id]];
    assert Tally(s'.orders, HeldBy(InReserved, v)) == r + In(InReserved, to, d);
    assert Tally(s'.orders, HeldBy(InCommitted, v)) == c + In(InCommitted, to, d);
  }

  lemma CommittedStockRow(s: Shop, id: nat, prev: Status, to: Status, note: string, admin: Option<string>, v: Variant)
    requires id < |s.orders| && v in s.book.rows
    ensures var k, b' := MoveFor(prev, to), Committed(s, id, prev, to, note, admin).book;
            var row, d := s.book.rows[v], Demand(s.orders[id].lines, v);
            && v in b'.rows
            && b'.rows[v] == (if k.Some? then Moved(row, k.value, d) else row)
            && Units(b', v) == Units(s.book, v) + if k.Some? then Overdraw(row, k.value, d) else 0
  {
    var k := MoveFor(prev, to);
    if k.Some? {
      MovedLinesRows(s.book, k.value, s.orders[id].lines, id);
      MovedLinesUnits(s.book, k.value, s.orders[id].lines, id, v);
    }
  }

  lemma CommittedReplays(opening: map<Variant, int>, s: Shop, id: nat, prev: Status, to: Status, note: string, admin: Option<string>)
    requires id < |s.orders| && Replays(opening, s.book)
    ensures Replays(opening, Committed(s, id, prev, to, note, admin).book)
    ensures Committed(s, id, prev, to, note, admin).book.rows.Keys == s.book.rows.Keys
  {
    var k := MoveFor(prev, to);
    if k.Some? {
      MovedLinesReplays(opening, s.book, k.value, s.orders[id].lines, id);
    }
  }

  /**
   * The status is read before the transaction that writes it. Stock survives
   * the write exactly when the status has not left its bucket in between (or
   * the order holds no tracked stock at all).
   */
  lemma StaleTransitionIff(opening: map<Variant, int>, s: Shop, id: nat, prev: Status, to: Status, note: string, admin: Option<string>)
    requires id < |s.orders| && to in AllowedFrom(prev) && StockOk(opening, s)
    ensures StockOk(opening, Committed(s, id, prev, to, note, admin)) <==>
            || HoldOf(prev) == HoldOf(s.orders[id].status)
            || forall v :: v in s.book.rows ==> Demand(s.orders[id].lines, v) == 0
  {
    var s' := Committed(s, id, prev, to, note, admin);
    CommittedReplays(opening, s, id, prev, to, note, admin);
    forall v | v in s.book.rows
      ensures RowOk(opening, s', v) <==> HoldOf(prev) == HoldOf(s.orders[id].status) || Demand(s.orders[id].lines, v) == 0
    {
      CommittedRow(opening, s, id, prev, to, note, admin, v);
    }
  }

  lemma BucketSuffices(status: Status, to: Status, row: Stock, d: nat)
    requires to in AllowedFrom(status)
    requires In(InReserved, status, d) <= row.reserved && In(InCommitted, status, d) <= row.committed
    ensures MoveFor(status, to).Some? ==> Overdraw(row, MoveFor(status, to).value, d) == 0
  {
  }

  /** On a current status no GREATEST(0, ...) clamp takes effect: the bucket always holds the order's units. */
  lemma NoClampTakesEffect(opening: map<Variant, int>, s: Shop, id: nat, to: Status, v: Variant)
    requires id < |s.orders| && to in AllowedFrom(s.orders[id].status) && StockOk(opening, s) && v in s.book.rows
    ensures MoveFor(s.orders[id].status, to).Some? ==>
              Overdraw(s.book.rows[v], MoveFor(s.orders[id].status, to).value, Demand(s.orders[id].lines, v)) == 0
  {
    assert RowOk(opening, s, v);
    TalliesOfUpdate(s.orders, id, s.orders[id], v);
    BucketSuffices(s.orders[id].status, to, s.book.rows[v], Demand(s.orders[id].lines, v));
  }

  /** Changing an order without touching its bucket or lines moves no stock. */
  lemma RelabelledStock(opening: map<Variant, int>, s: Shop, s': Shop, id: nat, o: Order)
    requires StockOk(opening, s) && id < |s.orders| && s'.book == s.book && s'.orders == s.orders[id := o]
    requires HoldOf(o.status) == HoldOf(s.orders[id].status) && o.lines == s.orders[id].lines
    ensures StockOk(opening, s')
  {
    forall v | v in s'.book.rows ensures RowOk(opening, s', v) {
      assert RowOk(opening, s, v);
      TallyOfUpdate(s.orders, id, o, HeldBy(InReserved, v));
      TallyOfUpdate(s.orders, id, o, HeldBy(InCommitted, v));
    }
  }

  /** The row of one variant once an order has been reserved for a new holder of its lines. */
  lemma ReservedBook(opening: map<Variant, int>, b: Book, lines: seq<Line>, id: nat, v: Variant)
    requires Replays(opening, b) && v in b.rows && Units(b, v) == opening[v] && 0 <= b.rows[v].available
    requires ReservedLines(b, lines, id).Ok?
    ensures var b' := ReservedLines(b, lines, id).value;
            && Replays(opening, b') && b'.rows.Keys == b.rows.Keys && Units(b', v) == opening[v]
            && b'.rows[v] == Moved(b.rows[v], OrderPlaced, Demand(lines, v)) && 0 <= b'.rows[v].available
  {
    ReservedLinesIff(b, lines, id);
    MovedLinesReplays(opening, b, OrderPlaced, lines, id);
    MovedLinesRows(b, OrderPlaced, lines, id);
    MovedLinesUnits(b, OrderPlaced, lines, id, v);
    if !Stocks(lines, v) { DemandOfAbsent(lines, v); }
  }

  /** The restore reserves again whatever the status: the sums survive exactly when the order held nothing, or has no tracked units. */
  lemma ReinstatedStockIff(opening: map<Variant, int>, s: Shop, id: nat)
    requires id < |s.orders| && StockOk(opening, s) && Reinstated(s, id).Ok?
    ensures StockOk(opening, Reinstated(s, id).value) <==>
            || HoldOf(s.orders[id].status) == NoHold
            || forall v :: v in s.book.rows ==> Demand(s.orders[id].lines, v) == 0
  {
    var s', o := Reinstated(s, id).value, s.orders[id];
    ReservedReplays(opening, s.book, o.lines, id);
    forall v | v in s.book.rows ensures RowOk(opening, s', v) <==> HoldOf(o.status) == NoHold || Demand(o.lines, v) == 0 {
      assert RowOk(opening, s, v);
      ReservedBook(opening, s.book, o.lines, id, v);
      TalliesOfUpdate(s.orders, id, s'.orders[id], v);
    }
  }

  lemma ReservedReplays(opening: map<Variant, int>, b: Book, lines: seq<Line>, id: nat)
    requires Replays(opening, b) && ReservedLines(b, lines, id).Ok?
    ensures Replays(opening, ReservedLines(b, lines, id).value)
    ensures ReservedLines(b, lines, id).value.rows.Keys == b.rows.Keys
  {
    ReservedLinesIff(b, lines, id);
    MovedLinesReplays(opening, b, OrderPlaced, lines, id);
  }

  lemma CreatedStock(opening: map<Variant, int>, s: Shop, o: Order)
    requires StockOk(opening, s) && HoldOf(o.status) == InReserved && Created(s, o).Ok?
    ensures StockOk(opening, Created(s, o).value)
  {
    var s' := Created(s, o).value;
    ReservedReplays(opening, s.book, o.lines, |s.orders|);
    forall v | v in s'.book.rows ensures RowOk(opening, s', v) {
      assert RowOk(opening, s, v);
      ReservedBook(opening, s.book, o.lines, |s.orders|, v);
      TallyOfAppend(s.orders, o, HeldBy(InReserved, v));
      TallyOfAppend(s.orders, o, HeldBy(InCommitted, v));
    }
  }

  /** Restocks and manual adjustments move only `available`, and the log accounts for them. */
  lemma SuppliedStock(opening: map<Variant, int>, s: Shop, k: MoveKind, v: Variant, q: int, id: Option<nat>)
    requires StockOk(opening, s) && k in {Restock, ManualAdjustment} && QuantityOk(k, q)
    requires v in s.book.rows ==> 0 <= s.book.rows[v].available + q
    ensures StockOk(opening, s.(book := Applied(s.book, k, v, q, id)))
  {
    var s' := s.(book := Applied(s.book, k, v, q, id));
    AppliedReplays(opening, s.book, k, v, q, id);
    forall u | u in s'.book.rows ensures RowOk(opening, s', u) {
      assert RowOk(opening, s, u);
      AppliedUnits(s.book, k, v, q, id, u);
    }
  }

  // ── Histories ──────────────────────────────────────────────────────────

  function PaidRows(h: seq<HistoryRow>): nat {
    if h == [] then 0 else PaidRows(h[..|h| - 1]) + if h[|h| - 1].to == Paid then 1 else 0
  }

  predicate IsRestore(row: HistoryRow) {
    row.from == Some(Cancelled) && row.to == AwaitingPayment
  }

  function RestoreRows(h: seq<HistoryRow>): nat {
    if h == [] then 0 else RestoreRows(h[..|h| - 1]) + if IsRestore(h[|h| - 1]) then 1 else 0
  }

  predicate Follows(h: seq<HistoryRow>, i: nat)
    requires 0 < i < |h|
  {
    h[i].from == Some(h[i - 1].to) && (h[i].to in AllowedFrom(h[i - 1].to) || IsRestore(h[i]))
  }

  /** The rows chain from creation to the current status, each an allowed transition or the restore. */
  ghost predicate ChainOk(o: Order) {
    && o.history != []
    && o.history[0].from.None?
    && o.history[|o.history| - 1].to == o.status
    && forall i :: 0 < i < |o.history| ==> Follows(o.history, i)
  }

  /** An order enters Paid at most once; afterwards only a person can have cancelled it. */
  ghost predicate PaidOnce(o: Order) {
    && PaidRows(o.history) <= 1
    && (PaidRows(o.history) == 1 ==> o.status !in {Draft, Pending, AwaitingPayment})
    && (PaidRows(o.history) == 1 && o.status == Cancelled ==> o.history != [] && o.history[|o.history| - 1].admin.Some?)
    && (PaidRows(o.history) == 0 ==> o.status in {Draft, AwaitingPayment, Cancelled})
  }

  ghost predicate HistoryOk(o: Order) {
    ChainOk(o) && PaidOnce(o)
  }

  predicate MoneyOk(m: Money) {
    m.total == m.subtotal - m.categoryDiscount - m.discount + m.tax + m.shipping && m.tax == 0
  }

  lemma HistoryOfAppend(h: seq<HistoryRow>, row: HistoryRow)
    ensures PaidRows(h + [row]) == PaidRows(h) + if row.to == Paid then 1 else 0
    ensures RestoreRows(h + [row]) == RestoreRows(h) + if IsRestore(row) then 1 else 0
  {
    assert (h + [row])[..|h|] == h;
  }

  lemma ChainOfAppend(o: Order, row: HistoryRow)
    requires ChainOk(o) && row.from == Some(o.status) && (row.to in AllowedFrom(o.status) || IsRestore(row))
    ensures ChainOk(o.(status := row.to, history := o.history + [row]))
  {
    var h := o.history + [row];
    forall i | 0 < i < |h| ensures Follows(h, i) {
      if i < |o.history| { assert Follows(o.history, i); }
    }
  }

  /** Every allowed transition keeps the history sound, provided a paid order is cancelled by a person. */
  lemma CommittedHistory(s: Shop, id: nat, to: Status, note: string, admin: Option<string>)
    requires id < |s.orders| && to in AllowedFrom(s.orders[id].status) && HistoryOk(s.orders[id])
    requires to == Cancelled && PaidRows(s.orders[id].history) == 1 ==> admin.Some?
    ensures var o := Committed(s, id, s.orders[id].status, to, note, admin).orders[id];
            && HistoryOk(o)
            && PaidRows(o.history) == PaidRows(s.orders[id].history) + (if to == Paid then 1 else 0)
  {
    var o := s.orders[id];
    var row := HistoryRow(Some(o.status), to, note, admin);
    ChainOfAppend(o, row);
    HistoryOfAppend(o.history, row);
  }

  lemma WithoutInitial(text: string, part: string)
    requires part != [] && part[0] !in text
    ensures !Mentions(text, part)
  {
    forall i | 0 <= i <= |text| - |part| ensures !OccursAt(text, part, i) {
      assert text[i..i + |part|][0] == text[i] && text[i] in text;
    }
  }

  lemma RebuiltNoteIsNoTimeout()
    ensures !Mentions(REBUILT_NOTE, "Reservation expired") && !Mentions(REBUILT_NOTE, "Payment failed")
  {
    assert 'R' !in "Cart changed during checkout" && 'R' !in " — order rebuilt from the cart";
    assert 'P' !in "Cart changed during checkout" && 'P' !in " — order rebuilt from the cart";
    WithoutInitial(REBUILT_NOTE, "Reservation expired");
    WithoutInitial(REBUILT_NOTE, "Payment failed");
  }

  // ── The invariant ──────────────────────────────────────────────────────

  ghost predicate OrderOk(o: Order) {
    HistoryOk(o) && MoneyOk(o.money)
  }

  function RedeemedBy(code: string): Order -> nat {
    (o: Order) => if o.coupon == Some(code) then PaidRows(o.history) else 0
  }

  ghost predicate CompletionOk(s: Shop, id: nat) {
    s.completions[id] == if id < |s.orders| then PaidRows(s.orders[id].history) else 0
  }

  ghost predicate RedemptionOk(s: Shop, code: string) {
    s.couponUses[code] == Tally(s.orders, RedeemedBy(code))
  }

  /** Lifetime statistics and coupon uses are exactly the payments in the histories. */
  ghost predicate CountsOk(s: Shop) {
    (forall id: nat :: CompletionOk(s, id)) && (forall code: string :: RedemptionOk(s, code))
  }

  ghost predicate Good(opening: map<Variant, int>, s: Shop) {
    && StockOk(opening, s)
    && (forall id :: 0 <= id < |s.orders| ==> OrderOk(s.orders[id]))
    && CountsOk(s)
  }

  /** One more paid row on an order, recorded once and redeemed once. */
  lemma RecountedOrder(s: Shop, s': Shop, id: nat, o: Order, paid: bool)
    requires CountsOk(s) && id < |s.orders| && s'.orders == s.orders[id := o] && o.coupon == s.orders[id].coupon
    requires PaidRows(o.history) == PaidRows(s.orders[id].history) + if paid then 1 else 0
    requires s'.completions == if paid then s.completions + multiset{id} else s.completions
    requires s'.couponUses == if paid && o.coupon.Some? then s.couponUses + multiset{o.coupon.value} else s.couponUses
    ensures CountsOk(s')
  {
    forall j: nat ensures CompletionOk(s', j) {
      assert CompletionOk(s, j);
    }
    forall code: string ensures RedemptionOk(s', code) {
      assert RedemptionOk(s, code);
      TallyOfUpdate(s.orders, id, o, RedeemedBy(code));
    }
  }

  lemma CommittedCounts(s: Shop, id: nat, prev: Status, to: Status, note: string, admin: Option<string>)
    requires id < |s.orders| && CountsOk(s)
    ensures CountsOk(Committed(s, id, prev, to, note, admin))
  {
    var s', o := Committed(s, id, prev, to, note, admin), s.orders[id];
    HistoryOfAppend(o.history, HistoryRow(Some(prev), to, note, admin));
    RecountedOrder(s, s', id, s'.orders[id], to == Paid);
  }

  lemma GoodOfUpdate(opening: map<Variant, int>, s: Shop, s': Shop, id: nat)
    requires Good(opening, s) && id < |s.orders| && |s'.orders| == |s.orders|
    requires s'.orders == s.orders[id := s'.orders[id]]
    requires StockOk(opening, s') && OrderOk(s'.orders[id]) && CountsOk(s')
    ensures Good(opening, s')
  {
  }

  lemma TransitionedGood(opening: map<Variant, int>, s: Shop, id: nat, to: Status, note: string, admin: Option<string>)
    requires Good(opening, s)
    requires id < |s.orders| && to == Cancelled && PaidRows(s.orders[id].history) == 1 ==> admin.Some?
    ensures Good(opening, Transitioned(s, id, to, note, admin).shop)
  {
    if id < |s.orders| && to in AllowedFrom(s.orders[id].status) {
      var prev := s.orders[id].status;
      assert OrderOk(s.orders[id]);
      StaleTransitionIff(opening, s, id, prev, to, note, admin);
      CommittedHistory(s, id, to, note, admin);
      CommittedCounts(s, id, prev, to, note, admin);
      GoodOfUpdate(opening, s, Committed(s, id, prev, to, note, admin), id);
    }
  }

  // ── Payment ────────────────────────────────────────────────────────────

  /** Changing an order's links, money or deadline keeps every count. */
  lemma RelabelledCounts(s: Shop, s': Shop, id: nat, o: Order)
    requires CountsOk(s) && id < |s.orders| && s'.orders == s.orders[id := o]
    requires s'.completions == s.completions && s'.couponUses == s.couponUses
    requires PaidRows(o.history) == PaidRows(s.orders[id].history)
    requires o.coupon == s.orders[id].coupon || PaidRows(o.history) == 0
    ensures CountsOk(s')
  {
    forall j: nat ensures CompletionOk(s', j) {
      assert CompletionOk(s, j);
    }
    forall code: string ensures RedemptionOk(s', code) {
      assert RedemptionOk(s, code);
      TallyOfUpdate(s.orders, id, o, RedeemedBy(code));
    }
  }

  /** The part of the invariant one order's own steps can see; a restored order is sound but not yet Good. */
  ghost predicate Sound(opening: map<Variant, int>, s: Shop, id: nat) {
    StockOk(opening, s) && CountsOk(s) && id < |s.orders| && HistoryOk(s.orders[id])
  }

  lemma CommittedSound(opening: map<Variant, int>, s: Shop, id: nat, to: Status, note: string, admin: Option<string>)
    requires Sound(opening, s, id) && to in AllowedFrom(s.orders[id].status) && to != Cancelled
    ensures var s' := Committed(s, id, s.orders[id].status, to, note, admin);
            && Sound(opening, s', id)
            && PaidRows(s'.orders[id].history) == PaidRows(s.orders[id].history) + (if to == Paid then 1 else 0)
  {
    StaleTransitionIff(opening, s, id, s.orders[id].status, to, note, admin);
    CommittedHistory(s, id, to, note, admin);
    CommittedCounts(s, id, s.orders[id].status, to, note, admin);
  }

  lemma RestoredSound(opening: map<Variant, int>, s: Shop, id: nat)
    requires Sound(opening, s, id) && s.orders[id].status == Cancelled && Restored(s, id).error.None?
    ensures var s' := Restored(s, id).shop;
            && Sound(opening, s', id)
            && PaidRows(s.orders[id].history) == 0 == PaidRows(s'.orders[id].history)
  {
    var s', o := Restored(s, id).shop, s.orders[id];
    var row := s'.orders[id].history[|o.history|];
    ReinstatedStockIff(opening, s, id);
    ChainOfAppend(o, row);
    HistoryOfAppend(o.history, row);
    RelabelledCounts(s, s', id, s'.orders[id]);
  }

  lemma LinkedSound(opening: map<Variant, int>, s: Shop, id: nat, intent: string)
    requires Sound(opening, s, id)
    ensures Sound(opening, Linked(s, id, intent), id)
  {
    var s' := Linked(s, id, intent);
    RelabelledStock(opening, s, s', id, s'.orders[id]);
    RelabelledCounts(s, s', id, s'.orders[id]);
    forall i | 0 < i < |s'.orders[id].history| ensures Follows(s'.orders[id].history, i) {
      assert Follows(s.orders[id].history, i);
    }
  }

  /** What payment does to one order: one more paid row, the intent recorded, nothing else touched. */
  ghost predicate PaidAs(o: Order, o': Order, intent: string) {
    && o' == o.(status := Paid, history := o'.history, paymentIntent := Some(intent))
    && PaidRows(o'.history) == PaidRows(o.history) + 1
  }

  lemma DraftWaits(opening: map<Variant, int>, s: Shop, id: nat)
    requires Sound(opening, s, id) && s.orders[id].status == Draft
    ensures var r := Transitioned(s, id, AwaitingPayment, "Payment initiated", None);
            && r.error.None? && Sound(opening, r.shop, id) && r.shop.orders == s.orders[id := r.shop.orders[id]]
            && var o, o' := s.orders[id], r.shop.orders[id];
               o' == o.(status := AwaitingPayment, history := o'.history)
               && PaidRows(o'.history) == PaidRows(o.history)
  {
    CommittedSound(opening, s, id, AwaitingPayment, "Payment initiated", None);
  }

  lemma WaitingIsPaid(opening: map<Variant, int>, s: Shop, id: nat)
    requires Sound(opening, s, id) && s.orders[id].status == AwaitingPayment
    ensures var r := Transitioned(s, id, Paid, "Payment confirmed", None);
            && r.error.None? && Sound(opening, r.shop, id) && r.shop.orders == s.orders[id := r.shop.orders[id]]
            && var o, o' := s.orders[id], r.shop.orders[id];
               o' == o.(status := Paid, history := o'.history)
               && PaidRows(o'.history) == PaidRows(o.history) + 1
  {
    CommittedSound(opening, s, id, Paid, "Payment confirmed", None);
  }

  /** From an open status, payment goes through. */
  lemma PaidFromSound(opening: map<Variant, int>, s: Shop, id: nat, status: Status, intent: string)
    requires Sound(opening, s, id) && Open(s.orders[id].status) && (status == Draft <==> s.orders[id].status == Draft)
    ensures PaidFrom(s, id, status, intent).error.None?
    ensures var s' := PaidFrom(s, id, status, intent).shop;
            Sound(opening, s', id) && s'.orders == s.orders[id := s'.orders[id]] && PaidAs(s.orders[id], s'.orders[id], intent)
  {
    var linked := Linked(s, id, intent);
    LinkedSound(opening, s, id, intent);
    if status == Draft {
      DraftWaits(opening, linked, id);
      WaitingIsPaid(opening, Transitioned(linked, id, AwaitingPayment, "Payment initiated", None).shop, id);
    } else {
      WaitingIsPaid(opening, linked, id);
    }
  }

  /** The orders a confirmation succeeds on, besides those already paid: open ones, and timed-out ones whose stock can be had back. */
  predicate Payable(s: Shop, id: nat) {
    && id < |s.orders|
    && (Open(s.orders[id].status) || (s.orders[id].status == Cancelled && Restored(s, id).error.None?))
  }

  /** A payable order ends paid, once, with its units committed and the invariant intact. */
  lemma ConfirmedPays(opening: map<Variant, int>, s: Shop, id: nat, intent: string)
    requires Good(opening, s) && Payable(s, id)
    ensures Confirmed(s, id, intent).error.None?
    ensures Good(opening, Confirmed(s, id, intent).shop)
    ensures var s' := Confirmed(s, id, intent).shop;
            && s'.orders == s.orders[id := s'.orders[id]]
            && var o, o' := s.orders[id], s'.orders[id];
               o' == o.(status := Paid, history := o'.history, paymentIntent := Some(intent)) && PaidRows(o'.history) == 1
  {
    var status := s.orders[id].status;
    assert OrderOk(s.orders[id]);
    var s1 := if status == Cancelled then Restored(s, id).shop else s;
    if status == Cancelled { RestoredSound(opening, s, id); }
    PaidFromSound(opening, s1, id, status, intent);
    var s' := PaidFrom(s1, id, status, intent).shop;
    assert s'.orders == s.orders[id := s'.orders[id]];
    GoodOfUpdate(opening, s, s', id);
  }

  /** Replacing an order's labels only keeps the invariant. */
  lemma RelabelledGood(opening: map<Variant, int>, s: Shop, s': Shop, id: nat, o: Order)
    requires Good(opening, s) && id < |s.orders| && s'.book == s.book && s'.orders == s.orders[id := o]
    requires s'.completions == s.completions && s'.couponUses == s.couponUses
    requires o.lines == s.orders[id].lines && o.history == s.orders[id].history && o.status == s.orders[id].status
    requires MoneyOk(o.money)
    requires o.coupon == s.orders[id].coupon || PaidRows(o.history) == 0
    ensures Good(opening, s')
  {
    assert OrderOk(s.orders[id]);
    RelabelledStock(opening, s, s', id, o);
    RelabelledCounts(s, s', id, o);
    forall i | 0 < i < |o.history| ensures Follows(o.history, i) { assert Follows(s.orders[id].history, i); }
    GoodOfUpdate(opening, s, s', id);
  }

  /** On a closed order the intent and the first expiry job are gone before the refusal. */
  lemma ConfirmedClosed(opening: map<Variant, int>, s: Shop, id: nat, intent: string)
    requires Good(opening, s) && id < |s.orders| && s.orders[id].status in {Pending, Processing, Shipped, Delivered, Refunded}
    ensures var s' := Confirmed(s, id, intent).shop;
            && Confirmed(s, id, intent).error.Some?
            && s' == Linked(s, id, intent)
            && Good(opening, s')
  {
    var s', o := Confirmed(s, id, intent).shop, s.orders[id];
    RelabelledGood(opening, s, s', id, o.(paymentIntent := Some(intent))) by { assert OrderOk(o); }
  }

  /** A confirmation succeeds exactly on paid and payable orders; a refused one never moves stock, status or counts. */
  lemma ConfirmedOutcome(opening: map<Variant, int>, s: Shop, id: nat, intent: string)
    requires Good(opening, s)
    ensures Confirmed(s, id, intent).error.None? <==> Payable(s, id) || (id < |s.orders| && s.orders[id].status == Paid)
    ensures !Payable(s, id) ==>
              var s' := Confirmed(s, id, intent).shop;
              s' == if id < |s.orders| && s.orders[id].status in {Processing, Shipped, Delivered, Refunded}
                    then Linked(s, id, intent) else s
    ensures Good(opening, Confirmed(s, id, intent).shop)
  {
    if Payable(s, id) {
      ConfirmedPays(opening, s, id, intent);
    } else if id < |s.orders| && s.orders[id].status != Paid && s.orders[id].status != Cancelled {
      assert OrderOk(s.orders[id]);
      ConfirmedClosed(opening, s, id, intent);
    }
  }

  /** A cancelled order can be paid exactly when no person cancelled it and every variant covers all its lines together. */
  lemma CancelledPayableIff(s: Shop, id: nat)
    requires id < |s.orders| && s.orders[id].status == Cancelled
    ensures Payable(s, id) <==>
            && ByTimeout(s.orders[id].history)
            && forall v :: Stocks(s.orders[id].lines, v) ==> v in s.book.rows && Demand(s.orders[id].lines, v) <= s.book.rows[v].available
  {
    ReservedLinesIff(s.book, s.orders[id].lines, id);
  }

  // ── Checkout ───────────────────────────────────────────────────────────

  predicate IsNew(o: Order) {
    Open(o.status) && |o.history| == 1 && o.history[0] == HistoryRow(None, o.status, o.history[0].note, None)
  }

  lemma NewOrderHistory(o: Order)
    requires IsNew(o)
    ensures HistoryOk(o) && PaidRows(o.history) == 0 == RestoreRows(o.history)
  {
    assert o.history == [] + [o.history[0]];
    HistoryOfAppend([], o.history[0]);
  }

  lemma CreatedCounts(s: Shop, o: Order)
    requires CountsOk(s) && PaidRows(o.history) == 0 && Created(s, o).Ok?
    ensures CountsOk(Created(s, o).value)
  {
    var s' := Created(s, o).value;
    forall j: nat ensures CompletionOk(s', j) { assert CompletionOk(s, j); }
    forall code: string ensures RedemptionOk(s', code) {
      assert RedemptionOk(s, code);
      TallyOfAppend(s.orders, o, RedeemedBy(code));
    }
  }

  lemma CreatedGood(opening: map<Variant, int>, s: Shop, o: Order)
    requires Good(opening, s) && Created(s, o).Ok? && IsNew(o) && MoneyOk(o.money)
    ensures Good(opening, Created(s, o).value)
  {
    NewOrderHistory(o);
    CreatedStock(opening, s, o);
    CreatedCounts(s, o);
  }

  lemma DraftPlacedGood(opening: map<Variant, int>, s: Shop, c: Cart, p: Pricing, pricesOk: bool, lag: nat)
    requires Good(opening, s)
    ensures Good(opening, DraftPlaced(s, c, p, pricesOk, lag).shop)
  {
    if pricesOk && Created(s, NewDraft(s, c, p)).Ok? {
      CreatedGood(opening, s, NewDraft(s, c, p));
      var s1, s' := Created(s, NewDraft(s, c, p)).value, DraftPlaced(s, c, p, pricesOk, lag).shop;
      RequeuedGood(opening, s1, s');
    }
  }

  /** The queue and the clock are outside the invariant. */
  lemma RequeuedGood(opening: map<Variant, int>, s: Shop, s': Shop)
    requires Good(opening, s) && s' == s.(jobs := s'.jobs, now := s'.now)
    ensures Good(opening, s')
  {
    forall v | v in s'.book.rows ensures RowOk(opening, s', v) { assert RowOk(opening, s, v); }
    forall j: nat ensures CompletionOk(s', j) { assert CompletionOk(s, j); }
    forall code: string ensures RedemptionOk(s', code) { assert RedemptionOk(s, code); }
  }

  /** Resuming an order that is still open re-prices it and no more. */
  lemma ResumedGood(opening: map<Variant, int>, s: Shop, id: nat, lines: seq<Line>, p: Pricing)
    requires Good(opening, s) && id < |s.orders| && Open(s.orders[id].status)
    ensures Good(opening, Resumed(s, id, lines, p))
  {
    var s' := Resumed(s, id, lines, p);
    assert OrderOk(s.orders[id]);
    RelabelledGood(opening, s, s', id, s'.orders[id]);
  }

  /** Resuming, rebuilding or creating a checkout keeps stock sums, histories, counts and totals. */
  lemma InitiatedGood(opening: map<Variant, int>, s: Shop, cart: Option<Cart>, p: Pricing, pricesOk: bool, lag: nat)
    requires Good(opening, s)
    ensures Good(opening, Initiated(s, cart, p, pricesOk, lag).shop)
  {
    if cart.Some? && cart.value.lines != [] {
      var c := cart.value;
      var found := FindOpen(s.orders, c.token);
      if found.None? {
        DraftPlacedGood(opening, s, c, p, pricesOk, lag);
      } else if Outdated(s.orders[found.value], c.lines) {
        assert OrderOk(s.orders[found.value]);
        TransitionedGood(opening, s, found.value, Cancelled, REBUILT_NOTE, None);
        DraftPlacedGood(opening, Transitioned(s, found.value, Cancelled, REBUILT_NOTE, None).shop, c, p, pricesOk, lag);
      } else {
        ResumedGood(opening, s, found.value, c.lines, p);
      }
    }
  }

  lemma PlacedFromCartGood(opening: map<Variant, int>, s: Shop, cart: Option<Cart>, pricesOk: bool, quote: Option<Quote>)
    requires Good(opening, s)
    ensures Good(opening, PlacedFromCart(s, cart, pricesOk, quote).shop)
  {
    if PlacedFromCart(s, cart, pricesOk, quote).error.None? {
      var s' := PlacedFromCart(s, cart, pricesOk, quote).shop;
      CreatedGood(opening, s, s'.orders[|s.orders|]);
    }
  }

  lemma ShippingUpdatedGood(opening: map<Variant, int>, s: Shop, id: nat, quote: Option<Quote>)
    requires Good(opening, s)
    ensures Good(opening, ShippingUpdated(s, id, quote).shop)
  {
    if ShippingUpdated(s, id, quote).error.None? {
      assert OrderOk(s.orders[id]);
      var s' := ShippingUpdated(s, id, quote).shop;
      RelabelledGood(opening, s, s', id, s'.orders[id]);
    }
  }

  lemma MadeReadyGood(opening: map<Variant, int>, s: Shop, id: nat, testAllowed: bool, freeShipping: bool, pickupOk: bool)
    requires Good(opening, s)
    ensures Good(opening, MadeReady(s, id, testAllowed, freeShipping, pickupOk).shop)
  {
    var s' := MadeReady(s, id, testAllowed, freeShipping, pickupOk).shop;
    if s' != s {
      assert OrderOk(s.orders[id]);
      var note := "Customer proceeded to payment";
      assert s' == Committed(s, id, Draft, AwaitingPayment, note, None);
      TransitionedGood(opening, s, id, AwaitingPayment, note, None);
    }
  }

  lemma ExtendedGood(opening: map<Variant, int>, s: Shop, id: nat, lag: nat)
    requires Good(opening, s)
    ensures Good(opening, Extended(s, id, lag))
  {
    var s' := Extended(s, id, lag);
    if id < |s.orders| && Open(s.orders[id].status) {
      assert OrderOk(s.orders[id]);
      RelabelledGood(opening, s, s', id, s'.orders[id]);
    } else {
      RequeuedGood(opening, s, s');
    }
  }

  lemma SuppliedGood(opening: map<Variant, int>, s: Shop, k: MoveKind, v: Variant, q: int, id: Option<nat>)
    requires Good(opening, s) && k in {Restock, ManualAdjustment} && QuantityOk(k, q)
    requires v in s.book.rows ==> 0 <= s.book.rows[v].available + q
    ensures Good(opening, s.(book := Applied(s.book, k, v, q, id)))
  {
    var s' := s.(book := Applied(s.book, k, v, q, id));
    SuppliedStock(opening, s, k, v, q, id);
    forall j: nat ensures CompletionOk(s', j) { assert CompletionOk(s, j); }
    forall code: string ensures RedemptionOk(s', code) { assert RedemptionOk(s, code); }
  }
}
