/**
 * What each order operation does, written out status by status and column by
 * column: which calls succeed, what they write, and which units they move.
 */
module Transitions {
  import opened Common
  import opened Inventory
  import opened Orders
  import opened OrderInvariants

  // ── Status changes ─────────────────────────────────────────────────────

  /** The fifteen moves an order may make. */
  predicate May(from: Status, to: Status) {
    || (from in {Draft, Pending} && to in {AwaitingPayment, Cancelled})
    || (from == AwaitingPayment && to in {Paid, Cancelled})
    || (from == Paid && to in {Processing, Cancelled, Refunded})
    || (from == Processing && to in {Shipped, Cancelled, Refunded})
    || (from == Shipped && to in {Delivered, Refunded})
    || (from == Delivered && to == Refunded)
  }

  /** The order moved on, with one more history row; the other orders are as they were. */
  predicate Advanced(s: Shop, s': Shop, id: nat, to: Status, note: string, admin: Option<string>)
    requires id < |s.orders|
  {
    var o := s.orders[id];
    s'.orders == s.orders[id := o.(status := to, history := o.history + [HistoryRow(Some(o.status), to, note, admin)])]
  }

  /** A status change goes through exactly on the fifteen moves; only payment counts a completion and a coupon use. */
  lemma TransitionedIff(s: Shop, id: nat, to: Status, note: string, admin: Option<string>)
    ensures var r := Transitioned(s, id, to, note, admin);
            if id >= |s.orders| then r == Reply(s, Some(OrderNotFound))
            else if !May(s.orders[id].status, to) then r == Reply(s, Some(NotAllowed(s.orders[id].status, to)))
            else
              && r.error.None? && Advanced(s, r.shop, id, to, note, admin)
              && r.shop.jobs == s.jobs && r.shop.now == s.now
              && r.shop.completions == (if to == Paid then s.completions + multiset{id} else s.completions)
              && r.shop.couponUses ==
                 (if to == Paid && s.orders[id].coupon.Some? then s.couponUses + multiset{s.orders[id].coupon.value} else s.couponUses)
  {
  }

  /** How far a column of an order's units moves: up, down or not at all. */
  function Shift(n: int, up: bool, down: bool): int {
    if up then n else if down then -n else 0
  }

  /**
   * The units of an order move with its status: payment takes them from
   * reserved to committed, shipping takes them out of the house, and a
   * cancellation or refund before shipping gives them back.
   */
  lemma TransitionedMoves(opening: map<Variant, int>, s: Shop, id: nat, to: Status, note: string, admin: Option<string>, v: Variant)
    requires Good(opening, s) && id < |s.orders| && May(s.orders[id].status, to) && v in s.book.rows
    ensures v in Transitioned(s, id, to, note, admin).shop.book.rows
    ensures Shifted(s.book, Transitioned(s, id, to, note, admin).shop.book, s.orders[id].status, to, Demand(s.orders[id].lines, v), v)
  {
    var from := s.orders[id].status;
    NoClampTakesEffect(opening, s, id, to, v);
    CommittedStockRow(s, id, from, to, note, admin, v);
    CommittedNetShipped(s, id, from, to, note, admin, v);
    RowShifts(from, to, s.book.rows[v], Demand(s.orders[id].lines, v));
  }

  predicate Shifted(b: Book, b': Book, from: Status, to: Status, d: nat, v: Variant)
    requires v in b.rows && v in b'.rows
  {
    var unpaid, held := from in {Draft, Pending, AwaitingPayment}, from in {Paid, Processing};
    var ended := to in {Cancelled, Refunded};
    && b'.rows[v].available == b.rows[v].available + Shift(d, ended && (unpaid || held), false)
    && b'.rows[v].reserved == b.rows[v].reserved + Shift(d, false, (ended && unpaid) || to == Paid)
    && b'.rows[v].committed == b.rows[v].committed + Shift(d, to == Paid, (ended && held) || to == Shipped)
    && NetShipped(b'.log, v) == NetShipped(b.log, v) + Shift(d, to == Shipped, false)
  }

  lemma RowShifts(from: Status, to: Status, row: Stock, d: nat)
    requires May(from, to)
    requires MoveFor(from, to).Some? ==> Overdraw(row, MoveFor(from, to).value, d) == 0
    ensures var k := MoveFor(from, to);
            var row' := if k.Some? then Moved(row, k.value, d) else row;
            var unpaid, held := from in {Draft, Pending, AwaitingPayment}, from in {Paid, Processing};
            var ended := to in {Cancelled, Refunded};
            && row'.available == row.available + Shift(d, ended && (unpaid || held), false)
            && row'.reserved == row.reserved + Shift(d, false, (ended && unpaid) || to == Paid)
            && row'.committed == row.committed + Shift(d, to == Paid, (ended && held) || to == Shipped)
  {
  }

  lemma CommittedNetShipped(s: Shop, id: nat, from: Status, to: Status, note: string, admin: Option<string>, v: Variant)
    requires id < |s.orders| && v in s.book.rows && May(from, to)
    ensures NetShipped(Committed(s, id, from, to, note, admin).book.log, v)
         == NetShipped(s.book.log, v) + Shift(Demand(s.orders[id].lines, v), to == Shipped, false)
  {
    var k := MoveFor(from, to);
    if k.Some? { MovedLinesShipped(s.book, k.value, s.orders[id].lines, id, v); }
  }

  lemma LineShipped(b: Book, k: MoveKind, l: Line, o: nat, v: Variant)
    requires v in b.rows && !k.Restock? && !k.ManualAdjustment?
    ensures NetShipped(MovedLine(b, k, l, o).log, v) == NetShipped(b.log, v) + if k.OrderShipped? && l.variant == Some(v) then l.quantity else 0
  {
    if l.variant.Some? && l.variant.value in b.rows {
      NetShippedOfAppend(b.log, MovedLine(b, k, l, o).log[|b.log|], v);
    }
  }

  lemma {:induction false} MovedLinesShipped(b: Book, k: MoveKind, lines: seq<Line>, o: nat, v: Variant)
    requires v in b.rows && !k.Restock? && !k.ManualAdjustment?
    ensures NetShipped(MovedLines(b, k, lines, o).log, v) == NetShipped(b.log, v) + if k.OrderShipped? then Demand(lines, v) else 0
  {
    if lines != [] {
      var front, l := lines[..|lines| - 1], lines[|lines| - 1];
      MovedLinesShipped(b, k, front, o, v);
      MovedLinesKeys(b, k, front, o);
      LineShipped(MovedLines(b, k, front, o), k, l, o, v);
    }
  }

  // ── Cancelled by whom ──────────────────────────────────────────────────

  lemma MentionsIff(text: string, part: string)
    ensures Mentions(text, part) <==> exists before, after :: text == before + part + after
  {
    if Mentions(text, part) {
      var i :| 0 <= i <= |text| - |part| && OccursAt(text, part, i);
      assert text == text[..i] + part + text[i + |part|..];
    }
    if before, after :| text == before + part + after {
      assert OccursAt(text, part, |before|);
    }
  }

  /** A payment that comes late revives a cancelled order unless a person cancelled it or its note is about something else. */
  lemma ByTimeoutIff(history: seq<HistoryRow>)
    ensures ByTimeout(history) <==>
            && history != []
            && var last := history[|history| - 1];
               && last.to == Cancelled && last.admin.None?
               && (|| (exists before, after :: last.note == before + "Reservation expired" + after)
                   || (exists before, after :: last.note == before + "Payment failed" + after))
  {
    if history != [] {
      MentionsIff(history[|history| - 1].note, "Reservation expired");
      MentionsIff(history[|history| - 1].note, "Payment failed");
    }
  }

  // ── Payment ────────────────────────────────────────────────────────────

  /** The text from i to j, with nothing but spaces around it. */
  ghost predicate Core(text: string, i: nat, j: nat) {
    i <= j <= |text| && forall k :: 0 <= k < i || j <= k < |text| ==> IsSpace(text[k])
  }

  lemma SliceOfRest(text: string, i: nat, j: nat)
    requires text != [] && i <= j < |text|
    ensures text[i + 1..j + 1] == text[1..][i..j]
  {
    forall k | 0 <= k < j - i ensures text[i + 1..j + 1][k] == text[1..][i..j][k] {
      assert text[1..][i..j][k] == text[1..][i + k] == text[i + 1 + k];
    }
  }

  lemma CoreAfterFirst(text: string, i: nat, j: nat)
    requires text != [] && IsSpace(text[0]) && Core(text[1..], i, j)
    ensures Core(text, i + 1, j + 1) && text[i + 1..j + 1] == text[1..][i..j]
  {
    forall k | 0 <= k < i + 1 || j + 1 <= k < |text| ensures IsSpace(text[k]) {
      if k > 0 { assert text[1..][k - 1] == text[k]; }
    }
    SliceOfRest(text, i, j);
  }

  lemma CoreBeforeLast(text: string, i: nat, j: nat)
    requires text != [] && IsSpace(text[|text| - 1]) && Core(text[..|text| - 1], i, j)
    ensures Core(text, i, j) && text[i..j] == text[..|text| - 1][i..j]
  {
    forall k | 0 <= k < i || j <= k < |text| ensures IsSpace(text[k]) {
      if k < |text| - 1 { assert text[..|text| - 1][k] == text[k]; }
    }
    assert text[i..j] == text[..|text| - 1][i..j];
  }

  /** Trimming takes the spaces off both ends and nothing else. */
  lemma {:induction false} TrimmedIs(text: string) returns (i: nat, j: nat)
    ensures Core(text, i, j) && Trimmed(text) == text[i..j]
    ensures Trimmed(text) != [] ==> !IsSpace(Trimmed(text)[0]) && !IsSpace(Trimmed(text)[|Trimmed(text)| - 1])
    decreases |text|
  {
    i, j := 0, |text|;
    if text != [] && IsSpace(text[0]) {
      i, j := TrimmedIs(text[1..]);
      CoreAfterFirst(text, i, j);
      i, j := i + 1, j + 1;
    } else if text != [] && IsSpace(text[|text| - 1]) {
      i, j := TrimmedIs(text[..|text| - 1]);
      CoreBeforeLast(text, i, j);
    }
  }

  /** A payment recorded by hand goes where any other would, under the order's own intent or one naming who took it. */
  lemma MarkedPaidIsConfirmed(s: Shop, id: nat, note: string, taker: string)
    requires id < |s.orders| && taker == if Trimmed(note) == "" then "manual:admin" else "manual:" + Trimmed(note)
    ensures var o := s.orders[id];
            MarkedPaid(s, id, note) == if o.status == Paid then Reply(s, None)
                                       else Confirmed(s, id, if o.paymentIntent.Some? then o.paymentIntent.value else taker)
  {
    assert "manual:" + "admin" == "manual:admin";
    assert s.orders[id].status != Paid ==>
             ManualIntent(s.orders[id], note) == if s.orders[id].paymentIntent.Some? then s.orders[id].paymentIntent.value else taker;
  }

  /** The history of an open order that is paid: a draft first waits, then both are paid. */
  lemma ConfirmedHistory(opening: map<Variant, int>, s: Shop, id: nat, intent: string)
    requires Good(opening, s) && id < |s.orders| && Open(s.orders[id].status)
    ensures var o, o' := s.orders[id], Confirmed(s, id, intent).shop.orders[id];
            var waits := if o.status == Draft then [HistoryRow(Some(Draft), AwaitingPayment, "Payment initiated", None)] else [];
            o'.history == o.history + waits + [HistoryRow(Some(AwaitingPayment), Paid, "Payment confirmed", None)]
  {
    ConfirmedPays(opening, s, id, intent);
    if s.orders[id].status == AwaitingPayment { assert s.orders[id].history + [] == s.orders[id].history; }
  }

  /** That of a timed-out order that is paid after all: first the restore, then the payment. */
  lemma RevivedHistory(opening: map<Variant, int>, s: Shop, id: nat, intent: string)
    requires Good(opening, s) && Payable(s, id) && s.orders[id].status == Cancelled
    ensures Confirmed(s, id, intent).shop.orders[id].history == s.orders[id].history + [
              HistoryRow(Some(Cancelled), AwaitingPayment, "Payment arrived after the reservation timed out — order restored", None),
              HistoryRow(Some(AwaitingPayment), Paid, "Payment confirmed", None)]
  {
    ConfirmedPays(opening, s, id, intent);
    var restored := Restored(s, id).shop.orders[id];
    assert restored.history == s.orders[id].history + [RESTORED];
  }

  /** Why a confirmation is refused: no such order, cancelled by hand, stock gone, or a status no payment leads from. */
  lemma ConfirmedRefusal(opening: map<Variant, int>, s: Shop, id: nat, intent: string)
    requires Good(opening, s)
    ensures Confirmed(s, id, intent).error.Some? ==>
              var e := Confirmed(s, id, intent).error.value;
              if id >= |s.orders| then e == OrderNotFound && Confirmed(s, id, intent).shop == s
              else if s.orders[id].status == Cancelled then
                if ByTimeout(s.orders[id].history) then e.StockRefused? else e == CancelledByHand
              else e == NotAllowed(s.orders[id].status, Paid)
    ensures id >= |s.orders| ==> Confirmed(s, id, intent).error.Some? && MarkedPaid(s, id, intent) == Reply(s, Some(OrderNotFound))
  {
    ConfirmedOutcome(opening, s, id, intent);
  }
}
