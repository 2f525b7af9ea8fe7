/**
 * Stock buckets and the movement log: src/inventory/inventory.service.ts.
 *
 * A Book is the inventory table together with its append-only movement log.
 * Every operation is a function on Books; the InventoryService class performs
 * the same update in place.
 */
module Inventory {
  import opened Common

  type Variant = string

  /** `reserved` and `committed` only ever grow or are clamped at zero, so they are naturals. */
  datatype Stock = Stock(available: int, reserved: nat, committed: nat)

  datatype MoveKind = OrderPlaced | OrderCancelled | OrderPaid | OrderRefunded | OrderShipped | Restock | ManualAdjustment

  datatype Movement = Movement(variant: Variant, order: Option<nat>, kind: MoveKind, delta: int,
                               availableAfter: int, reservedAfter: nat, committedAfter: nat)

  datatype Book = Book(rows: map<Variant, Stock>, log: seq<Movement>)

  datatype StockError = NoInventory(variant: Variant) | InsufficientStock(available: int, requested: nat) | NegativeStock

  /** One embroidered position; its stored row carries the rest as JSON. */
  datatype Design = Design(placementKey: string, text: Option<string>, json: string)

  /** One line of an order; the catalogue may have lost the variant since. Design rows have no order of their own. */
  datatype Line = Line(variant: Option<Variant>, quantity: nat, unitPrice: nat, designs: multiset<Design>)

  // ── The effect of one movement on one row ──────────────────────────────

  /** SQL's GREATEST(0, n). */
  function AtLeastZero(n: int): nat {
    if n < 0 then 0 else n
  }

  /** Only a manual adjustment may carry a negative quantity. */
  predicate QuantityOk(k: MoveKind, q: int) {
    q < 0 ==> k.ManualAdjustment?
  }

  function Moved(s: Stock, k: MoveKind, q: int): Stock
    requires QuantityOk(k, q)
  {
    match k
    case OrderPlaced => s.(available := s.available - q, reserved := s.reserved + q)
    case OrderCancelled => s.(available := s.available + q, reserved := AtLeastZero(s.reserved - q))
    case OrderPaid => s.(reserved := AtLeastZero(s.reserved - q), committed := s.committed + q)
    case OrderRefunded => s.(available := s.available + q, committed := AtLeastZero(s.committed - q))
    case OrderShipped => s.(committed := AtLeastZero(s.committed - q))
    case Restock => s.(available := s.available + q)
    case ManualAdjustment => s.(available := s.available + q)
  }

  /** The signed quantity a movement row records. */
  function DeltaOf(k: MoveKind, q: int): int {
    match k
    case OrderPlaced => -q
    case OrderPaid => 0
    case OrderShipped => -q
    case _ => q
  }

  function Applied(b: Book, k: MoveKind, v: Variant, q: int, o: Option<nat>): Book
    requires QuantityOk(k, q)
  {
    if v !in b.rows then b else
      var s := Moved(b.rows[v], k, q);
      Book(b.rows[v := s], b.log + [Movement(v, o, k, DeltaOf(k, q), s.available, s.reserved, s.committed)])
  }

  /** The conditional update behind a reservation. */
  function Reserved(b: Book, v: Variant, q: nat, o: nat): Result<Book, StockError> {
    if v !in b.rows then Err(NoInventory(v))
    else if b.rows[v].available < q then Err(InsufficientStock(b.rows[v].available, q))
    else Ok(Applied(b, OrderPlaced, v, q, Some(o)))
  }

  function Adjusted(b: Book, v: Variant, delta: int): Result<Book, StockError> {
    if v !in b.rows then Err(NoInventory(v))
    else if delta < 0 && b.rows[v].available < -delta then Err(NegativeStock)
    else Ok(Applied(b, ManualAdjustment, v, delta, None))
  }

  // ── Whole orders, line by line ─────────────────────────────────────────

  function MovedLine(b: Book, k: MoveKind, l: Line, o: nat): Book {
    if l.variant.None? then b else Applied(b, k, l.variant.value, l.quantity, Some(o))
  }

  function MovedLines(b: Book, k: MoveKind, lines: seq<Line>, o: nat): Book {
    if lines == [] then b
    else MovedLine(MovedLines(b, k, lines[..|lines| - 1], o), k, lines[|lines| - 1], o)
  }

  function ReservedLine(b: Book, l: Line, o: nat): Result<Book, StockError> {
    if l.variant.None? then Ok(b) else Reserved(b, l.variant.value, l.quantity, o)
  }

  function ReservedLines(b: Book, lines: seq<Line>, o: nat): Result<Book, StockError> {
    if lines == [] then Ok(b)
    else
      var before := ReservedLines(b, lines[..|lines| - 1], o);
      if before.Err? then before else ReservedLine(before.value, lines[|lines| - 1], o)
  }

  /** Once a line is refused, the lines after it do not matter. */
  lemma {:induction false} ReservedLinesStops(b: Book, lines: seq<Line>, i: nat, o: nat)
    requires i <= |lines| && ReservedLines(b, lines[..i], o).Err?
    ensures ReservedLines(b, lines, o) == ReservedLines(b, lines[..i], o)
  {
    if i == |lines| {
      assert lines[..i] == lines;
    } else {
      assert lines[..|lines| - 1][..i] == lines[..i];
      ReservedLinesStops(b, lines[..|lines| - 1], i, o);
    }
  }

  /** Units of a variant over all lines. */
  function Demand(lines: seq<Line>, v: Variant): nat {
    if lines == [] then 0
    else
      var l := lines[|lines| - 1];
      Demand(lines[..|lines| - 1], v) + if l.variant == Some(v) then l.quantity else 0
  }

  predicate Stocks(lines: seq<Line>, v: Variant) {
    exists i :: 0 <= i < |lines| && lines[i].variant == Some(v)
  }

  lemma DemandOfAbsent(lines: seq<Line>, v: Variant)
    requires !Stocks(lines, v)
    ensures Demand(lines, v) == 0
  {
    if lines != [] {
      assert lines[|lines| - 1].variant != Some(v);
      DemandOfAbsent(lines[..|lines| - 1], v);
    }
  }

  lemma MovedTwice(s: Stock, k: MoveKind, p: nat, q: nat)
    ensures Moved(s, k, 0) == s
    ensures Moved(Moved(s, k, p), k, q) == Moved(s, k, p + q)
  {
  }

  lemma MovedLineRow(b: Book, k: MoveKind, l: Line, o: nat, v: Variant)
    requires v in b.rows
    ensures v in MovedLine(b, k, l, o).rows
    ensures MovedLine(b, k, l, o).rows[v] == if l.variant == Some(v) then Moved(b.rows[v], k, l.quantity) else b.rows[v]
  {
  }

  lemma {:induction false} MovedLinesKeys(b: Book, k: MoveKind, lines: seq<Line>, o: nat)
    ensures MovedLines(b, k, lines, o).rows.Keys == b.rows.Keys
  {
    if lines != [] { MovedLinesKeys(b, k, lines[..|lines| - 1], o); }
  }

  lemma {:induction false} MovedLinesRow(b: Book, k: MoveKind, lines: seq<Line>, o: nat, v: Variant)
    requires v in b.rows
    ensures v in MovedLines(b, k, lines, o).rows
    ensures MovedLines(b, k, lines, o).rows[v] == Moved(b.rows[v], k, Demand(lines, v))
  {
    if lines == [] {
      MovedTwice(b.rows[v], k, 0, 0);
    } else {
      var front, l := lines[..|lines| - 1], lines[|lines| - 1];
      MovedLinesRow(b, k, front, o, v);
      MovedLineRow(MovedLines(b, k, front, o), k, l, o, v);
      MovedTwice(b.rows[v], k, Demand(front, v), l.quantity);
    }
  }

  /** Line-by-line movement moves each variant once, by its total over the order, clamps included. */
  lemma MovedLinesRows(b: Book, k: MoveKind, lines: seq<Line>, o: nat)
    ensures MovedLines(b, k, lines, o).rows.Keys == b.rows.Keys
    ensures forall v :: v in b.rows ==> MovedLines(b, k, lines, o).rows[v] == Moved(b.rows[v], k, Demand(lines, v))
  {
    MovedLinesKeys(b, k, lines, o);
    forall v | v in b.rows ensures MovedLines(b, k, lines, o).rows[v] == Moved(b.rows[v], k, Demand(lines, v)) {
      MovedLinesRow(b, k, lines, o, v);
    }
  }

  /** A whole order is reserved exactly when every variant has enough for all its lines together. */
  lemma {:induction false} ReservedLinesIff(b: Book, lines: seq<Line>, o: nat)
    ensures ReservedLines(b, lines, o).Ok? <==>
            forall v :: Stocks(lines, v) ==> v in b.rows && Demand(lines, v) <= b.rows[v].available
    ensures ReservedLines(b, lines, o).Ok? ==> ReservedLines(b, lines, o).value == MovedLines(b, OrderPlaced, lines, o)
  {
    if lines != [] {
      var front, l := lines[..|lines| - 1], lines[|lines| - 1];
      ReservedLinesIff(b, front, o);
      MovedLinesRows(b, OrderPlaced, front, o);
      forall v ensures Stocks(lines, v) <==> Stocks(front, v) || l.variant == Some(v) {
        if Stocks(front, v) {
          var i :| 0 <= i < |front| && front[i].variant == Some(v);
          assert lines[i].variant == Some(v);
        }
        if l.variant == Some(v) { assert lines[|lines| - 1].variant == Some(v); }
        if Stocks(lines, v) && l.variant != Some(v) {
          var i :| 0 <= i < |lines| && lines[i].variant == Some(v);
          assert front[i].variant == Some(v);
        }
      }
      if l.variant.Some? && !Stocks(front, l.variant.value) { DemandOfAbsent(front, l.variant.value); }
    }
  }

  /** A refusal is the first line's that does not fit after the lines before it. */
  lemma {:induction false} FirstRefusal(b: Book, lines: seq<Line>, o: nat) returns (i: nat)
    requires ReservedLines(b, lines, o).Err?
    ensures i < |lines| && lines[i].variant.Some? && ReservedLines(b, lines[..i], o).Ok?
    ensures var v, q := lines[i].variant.value, lines[i].quantity;
            ReservedLines(b, lines, o).error ==
            if v !in b.rows then NoInventory(v) else InsufficientStock(b.rows[v].available - Demand(lines[..i], v), q)
    ensures lines[i].variant.value in b.rows ==>
              b.rows[lines[i].variant.value].available - Demand(lines[..i], lines[i].variant.value) < lines[i].quantity
  {
    var n := |lines| - 1;
    if ReservedLines(b, lines[..n], o).Err? {
      i := FirstRefusal(b, lines[..n], o);
      assert lines[..n][..i] == lines[..i];
    } else {
      i := n;
      ReservedLinesIff(b, lines[..n], o);
      MovedLinesRows(b, OrderPlaced, lines[..n], o);
    }
  }

  // ── One movement, column by column ─────────────────────────────────────

  /** A number of units, or none below zero. */
  predicate Clamped(n: nat, exact: int) {
    if exact < 0 then n == 0 else n == exact
  }

  /** Every movement is logged with its order, its kind, its signed quantity and the three columns as they are afterwards. */
  lemma AppliedOutcome(b: Book, k: MoveKind, v: Variant, q: int, o: Option<nat>)
    requires QuantityOk(k, q)
    ensures v !in b.rows ==> Applied(b, k, v, q, o) == b
    ensures v in b.rows ==>
              var b', s := Applied(b, k, v, q, o), b.rows[v];
              && v in b'.rows && |b'.log| == |b.log| + 1
              && b' == Book(b.rows[v := b'.rows[v]], b.log + [b'.log[|b.log|]])
              && var s', m := b'.rows[v], b'.log[|b.log|];
                 && m.variant == v && m.order == o && m.kind == k
                 && m.availableAfter == s'.available && m.reservedAfter == s'.reserved && m.committedAfter == s'.committed
                 && m.delta == (if k == OrderPaid then 0 else if k in {OrderPlaced, OrderShipped} then -q else q)
                 && s'.available == s.available + (if k == OrderPlaced then -q else if k in {OrderPaid, OrderShipped} then 0 else q)
                 && (match k
                     case OrderPlaced => s'.reserved == s.reserved + q && s'.committed == s.committed
                     case OrderCancelled => Clamped(s'.reserved, s.reserved - q) && s'.committed == s.committed
                     case OrderPaid => Clamped(s'.reserved, s.reserved - q) && s'.committed == s.committed + q
                     case OrderRefunded => s'.reserved == s.reserved && Clamped(s'.committed, s.committed - q)
                     case OrderShipped => s'.reserved == s.reserved && Clamped(s'.committed, s.committed - q)
                     case _ => s'.reserved == s.reserved && s'.committed == s.committed)
  {
  }

  /** A reservation needs the row and the units, and says which is missing. */
  lemma ReservedOutcome(b: Book, v: Variant, q: nat, o: nat)
    ensures Reserved(b, v, q, o) ==
            if v !in b.rows then Err(NoInventory(v))
            else if b.rows[v].available < q then Err(InsufficientStock(b.rows[v].available, q))
            else Ok(Applied(b, OrderPlaced, v, q, Some(o)))
  {
  }

  /** An adjustment never takes the shelves below zero; one upwards is always accepted. */
  lemma AdjustedOutcome(b: Book, v: Variant, delta: int)
    ensures Adjusted(b, v, delta) ==
            if v !in b.rows then Err(NoInventory(v))
            else if delta >= 0 || 0 <= b.rows[v].available + delta then Ok(Applied(b, ManualAdjustment, v, delta, None))
            else Err(NegativeStock)
  {
  }

  // ── The movement log ───────────────────────────────────────────────────

  /** What a row says happened to `available`; shipping rows carry a delta that only left `committed`. */
  function AvailableEffect(m: Movement): int {
    if m.kind.OrderShipped? then 0 else m.delta
  }

  /** `available` recomputed from an opening stock and the log alone. */
  function Balance(opening: map<Variant, int>, log: seq<Movement>, v: Variant): int
    requires v in opening
  {
    if log == [] then opening[v]
    else
      var m := log[|log| - 1];
      Balance(opening, log[..|log| - 1], v) + if m.variant == v then AvailableEffect(m) else 0
  }

  /** Units shipped less units brought in from outside, as the log records them. */
  function NetShipped(log: seq<Movement>, v: Variant): int {
    if log == [] then 0
    else
      var m := log[|log| - 1];
      NetShipped(log[..|log| - 1], v) +
      if m.variant == v && (m.kind.OrderShipped? || m.kind.Restock? || m.kind.ManualAdjustment?) then -m.delta else 0
  }

  /** Units of a variant in every bucket, plus those that left and less those brought in. */
  function Units(b: Book, v: Variant): int
    requires v in b.rows
  {
    b.rows[v].available + b.rows[v].reserved + b.rows[v].committed + NetShipped(b.log, v)
  }

  /** The units GREATEST(0, ...) would swallow: how far a movement exceeds the bucket it draws on. */
  function Overdraw(s: Stock, k: MoveKind, q: int): nat {
    match k
    case OrderCancelled => AtLeastZero(q - s.reserved)
    case OrderPaid => AtLeastZero(q - s.reserved)
    case OrderRefunded => AtLeastZero(q - s.committed)
    case OrderShipped => AtLeastZero(q - s.committed)
    case _ => 0
  }

  /** Row i records the balance of the log up to and including itself. */
  ghost predicate RowReplays(opening: map<Variant, int>, log: seq<Movement>, i: nat)
    requires i < |log|
  {
    log[i].variant in opening && log[i].availableAfter == Balance(opening, log[..i + 1], log[i].variant)
  }

  ghost predicate Replays(opening: map<Variant, int>, b: Book) {
    && opening.Keys == b.rows.Keys
    && (forall v :: v in b.rows ==> b.rows[v].available == Balance(opening, b.log, v))
    && (forall i :: 0 <= i < |b.log| ==> RowReplays(opening, b.log, i))
  }

  lemma BalanceOfAppend(opening: map<Variant, int>, log: seq<Movement>, m: Movement, v: Variant)
    requires v in opening
    ensures Balance(opening, log + [m], v) == Balance(opening, log, v) + if m.variant == v then AvailableEffect(m) else 0
  {
    assert (log + [m])[..|log|] == log;
  }

  lemma NetShippedOfAppend(log: seq<Movement>, m: Movement, v: Variant)
    ensures NetShipped(log + [m], v) == NetShipped(log, v) + NetShipped([m], v)
  {
    assert (log + [m])[..|log|] == log;
  }

  /** A movement changes a variant's unit count by exactly what the clamp swallowed. */
  lemma AppliedUnits(b: Book, k: MoveKind, v: Variant, q: int, o: Option<nat>, u: Variant)
    requires QuantityOk(k, q) && u in b.rows
    ensures Applied(b, k, v, q, o).rows.Keys == b.rows.Keys
    ensures Units(Applied(b, k, v, q, o), u) == Units(b, u) + if u == v then Overdraw(b.rows[v], k, q) else 0
  {
    var b' := Applied(b, k, v, q, o);
    if v in b.rows {
      NetShippedOfAppend(b.log, b'.log[|b.log|], u);
    }
  }

  lemma AppliedReplays(opening: map<Variant, int>, b: Book, k: MoveKind, v: Variant, q: int, o: Option<nat>)
    requires QuantityOk(k, q) && Replays(opening, b)
    ensures Replays(opening, Applied(b, k, v, q, o))
  {
    var b' := Applied(b, k, v, q, o);
    if v in b.rows {
      var m := b'.log[|b.log|];
      forall u | u in b'.rows ensures b'.rows[u].available == Balance(opening, b'.log, u) {
        BalanceOfAppend(opening, b.log, m, u);
      }
      forall i | 0 <= i < |b'.log| ensures RowReplays(opening, b'.log, i) {
        if i < |b.log| {
          assert RowReplays(opening, b.log, i);
          assert b'.log[..i + 1] == b.log[..i + 1];
        } else {
          assert b'.log[..i + 1] == b'.log;
        }
      }
    }
  }

  lemma {:induction false} MovedLinesReplays(opening: map<Variant, int>, b: Book, k: MoveKind, lines: seq<Line>, o: nat)
    requires Replays(opening, b)
    ensures Replays(opening, MovedLines(b, k, lines, o))
  {
    if lines != [] {
      var front, l := lines[..|lines| - 1], lines[|lines| - 1];
      MovedLinesReplays(opening, b, k, front, o);
      if l.variant.Some? {
        AppliedReplays(opening, MovedLines(b, k, front, o), k, l.variant.value, l.quantity, Some(o));
      }
    }
  }

  lemma OverdrawAdds(s: Stock, k: MoveKind, p: nat, q: nat)
    ensures Overdraw(s, k, p) + Overdraw(Moved(s, k, p), k, q) == Overdraw(s, k, p + q)
  {
  }

  /** Over a whole order the unit count drifts by the overdraw of the order's total. */
  lemma {:induction false} MovedLinesUnits(b: Book, k: MoveKind, lines: seq<Line>, o: nat, v: Variant)
    requires v in b.rows
    ensures MovedLines(b, k, lines, o).rows.Keys == b.rows.Keys
    ensures Units(MovedLines(b, k, lines, o), v) == Units(b, v) + Overdraw(b.rows[v], k, Demand(lines, v))
  {
    if lines != [] {
      var front, l := lines[..|lines| - 1], lines[|lines| - 1];
      MovedLinesUnits(b, k, front, o, v);
      MovedLinesRows(b, k, front, o);
      if l.variant.Some? {
        AppliedUnits(MovedLines(b, k, front, o), k, l.variant.value, l.quantity, Some(o), v);
        OverdrawAdds(b.rows[v], k, Demand(front, v), l.quantity);
      }
    }
  }

  // ── The service ────────────────────────────────────────────────────────

  class InventoryService {
    var rows: map<Variant, Stock>
    var log: seq<Movement>

    function View(): Book
      reads this
    {
      Book(rows, log)
    }

    constructor (rows: map<Variant, Stock>)
      ensures View() == Book(rows, [])
    {
      this.rows := rows;
      this.log := [];
    }

    /** Reads the row back after its update and logs what it now holds. */
    method LogMovement(v: Variant, o: Option<nat>, kind: MoveKind, delta: int)
      requires v in rows
      modifies this`log
      ensures log == old(log) + [Movement(v, o, kind, delta, rows[v].available, rows[v].reserved, rows[v].committed)]
    {
      var item := rows[v];
      log := log + [Movement(v, o, kind, delta, item.available, item.reserved, item.committed)];
    }

    method ReserveForOrder(v: Variant, quantity: nat, o: nat) returns (r: Result<(), StockError>)
      modifies this
      ensures match Reserved(old(View()), v, quantity, o)
              case Ok(b) => r == Ok(()) && View() == b
              case Err(e) => r == Err(e) && View() == old(View())
    {
      if v !in rows { return Err(NoInventory(v)); }
      var item := rows[v];
      if item.available < quantity { return Err(InsufficientStock(item.available, quantity)); }
      rows := rows[v := item.(available := item.available - quantity, reserved := item.reserved + quantity)];
      LogMovement(v, Some(o), OrderPlaced, DeltaOf(OrderPlaced, quantity));
      return Ok(());
    }

    method ReleaseForOrder(v: Variant, quantity: nat, o: nat)
      modifies this
      ensures View() == Applied(old(View()), OrderCancelled, v, quantity, Some(o))
    {
      if v !in rows { return; }
      var item := rows[v];
      rows := rows[v := item.(reserved := AtLeastZero(item.reserved - quantity), available := item.available + quantity)];
      LogMovement(v, Some(o), OrderCancelled, quantity);
    }

    method CommitForOrder(v: Variant, quantity: nat, o: nat)
      modifies this
      ensures View() == Applied(old(View()), OrderPaid, v, quantity, Some(o))
    {
      if v !in rows { return; }
      var item := rows[v];
      rows := rows[v := item.(reserved := AtLeastZero(item.reserved - quantity), committed := item.committed + quantity)];
      LogMovement(v, Some(o), OrderPaid, 0);
    }

    method ReleaseCommittedForOrder(v: Variant, quantity: nat, o: nat)
      modifies this
      ensures View() == Applied(old(View()), OrderRefunded, v, quantity, Some(o))
    {
      if v !in rows { return; }
      var item := rows[v];
      rows := rows[v := item.(committed := AtLeastZero(item.committed - quantity), available := item.available + quantity)];
      LogMovement(v, Some(o), OrderRefunded, quantity);
    }

    method ConfirmSale(v: Variant, quantity: nat, o: nat)
      modifies this
      ensures View() == Applied(old(View()), OrderShipped, v, quantity, Some(o))
    {
      if v !in rows { return; }
      var item := rows[v];
      rows := rows[v := item.(committed := AtLeastZero(item.committed - quantity))];
      LogMovement(v, Some(o), OrderShipped, DeltaOf(OrderShipped, quantity));
    }

    method RestockForReturn(v: Variant, quantity: nat, o: nat)
      modifies this
      ensures View() == Applied(old(View()), Restock, v, quantity, Some(o))
    {
      if v !in rows { return; }
      var item := rows[v];
      rows := rows[v := item.(available := item.available + quantity)];
      LogMovement(v, Some(o), Restock, quantity);
    }

    method Adjust(v: Variant, delta: int) returns (r: Result<(), StockError>)
      modifies this
      ensures match Adjusted(old(View()), v, delta)
              case Ok(b) => r == Ok(()) && View() == b
              case Err(e) => r == Err(e) && View() == old(View())
    {
      if v !in rows { return Err(NoInventory(v)); }
      var item := rows[v];
      if delta < 0 && item.available < -delta { return Err(NegativeStock); }
      rows := rows[v := item.(available := item.available + delta)];
      LogMovement(v, None, ManualAdjustment, delta);
      return Ok(());
    }
  }
}
