/**
 * What a basket line costs and when a cart call is refused, from the tier list,
 * the stock and the catalogue alone.
 */
module CartPrices {
  import opened Common
  import opened Cart
  import opened CartInvariants

  // ── Prices ─────────────────────────────────────────────────────────────

  /** The variant's own price, else the product's base price with the variant's adjustments. */
  function OwnPrice(v: VariantInfo, p: ProductInfo): int {
    match v.price
    case Some(price) => price
    case None => v.optionAdjustment + match p.basePrice case Some(base) => base case None => 0
  }

  /** An active tier whose threshold is a whole number of units, at most `quantity`. */
  predicate AtTier(t: Tier, threshold: int, quantity: int) {
    t.active && t.quantity == threshold as real && threshold <= quantity
  }

  predicate Whole(t: Tier) {
    t.quantity == t.quantity.Floor as real
  }

  /** Tier i has the highest threshold the quantity reaches, and comes first among its equals. */
  ghost predicate TopTier(tiers: seq<Tier>, quantity: int, i: nat) {
    && i < |tiers| && tiers[i].active && Whole(tiers[i]) && tiers[i].quantity <= quantity as real
    && forall j, threshold :: 0 <= j < |tiers| && AtTier(tiers[j], threshold, quantity) ==>
         threshold as real < tiers[i].quantity || (threshold as real == tiers[i].quantity && i <= j)
  }

  ghost predicate NoTier(tiers: seq<Tier>, quantity: int) {
    forall i, threshold :: 0 <= i < |tiers| ==> !AtTier(tiers[i], threshold, quantity)
  }

  lemma ReachedAt(t: Tier, quantity: int)
    ensures Reached(t, quantity) ==> AtTier(t, t.quantity.Floor, quantity)
    ensures forall threshold :: AtTier(t, threshold, quantity) ==> Reached(t, quantity) && threshold == t.quantity.Floor
  {
  }

  lemma TopTierIsBest(tiers: seq<Tier>, quantity: int, i: nat)
    requires TopTier(tiers, quantity, i)
    ensures BestTier(tiers, quantity) == Some(i)
  {
    var best := BestTier(tiers, quantity);
    ReachedAt(tiers[i], quantity);
    assert Reached(tiers[i], quantity);
    if best.Some? {
      ReachedAt(tiers[best.value], quantity);
      assert AtTier(tiers[best.value], tiers[best.value].quantity.Floor, quantity);
    }
  }

  lemma NoTierIsNone(tiers: seq<Tier>, quantity: int)
    requires NoTier(tiers, quantity)
    ensures BestTier(tiers, quantity).None?
  {
    forall i | 0 <= i < |tiers| ensures !Reached(tiers[i], quantity) {
      assert !AtTier(tiers[i], tiers[i].quantity.Floor, quantity);
    }
  }

  /**
   * The price of a quantity: none when the variant's own price is negative;
   * otherwise that of the top tier reached, on an upselling product, whatever
   * the variant's own price; and the variant's own price failing a tier.
   */
  lemma UnitPriceIs(v: VariantInfo, p: ProductInfo, quantity: int)
    ensures OwnPrice(v, p) < 0 ==> UnitPrice(v, p, quantity).None?
    ensures 0 <= OwnPrice(v, p) && p.upselling ==>
              forall i: nat :: TopTier(p.tiers, quantity, i) ==> UnitPrice(v, p, quantity) == Some(p.tiers[i].unitPrice)
    ensures 0 <= OwnPrice(v, p) && (!p.upselling || NoTier(p.tiers, quantity)) ==> UnitPrice(v, p, quantity) == Some(OwnPrice(v, p))
  {
    forall i: nat | TopTier(p.tiers, quantity, i) ensures BestTier(p.tiers, quantity) == Some(i) { TopTierIsBest(p.tiers, quantity, i); }
    if NoTier(p.tiers, quantity) { NoTierIsNone(p.tiers, quantity); }
  }

  /**
   * After any session, a line costs what the tiers say for all units of its
   * product in the cart, whatever designs and variants they are split over,
   * plus its own embroidery fee.
   */
  lemma SessionPrices(c: Catalogue, steps: seq<CartStep>, n: nat)
    requires Complete(c) && n < |Session(c, steps).lines|
    ensures var lines := Session(c, steps).lines;
            var l := lines[n];
            && l.variant in c.variants && l.product in c.products && l.product == c.variants[l.variant].product
            && var v, p, total := c.variants[l.variant], c.products[l.product], SumOf(lines, OfProduct(l.product));
               && 0 <= OwnPrice(v, p)
               && (p.upselling ==> forall i: nat :: TopTier(p.tiers, total, i) ==> l.unitPrice == p.tiers[i].unitPrice + l.fee)
               && (!p.upselling || NoTier(p.tiers, total) ==> l.unitPrice == OwnPrice(v, p) + l.fee)
  {
    SessionSound(c, steps);
    var lines := Session(c, steps).lines;
    var l := lines[n];
    assert PriceRight(c, lines, l) && Catalogued(c, l);
    UnitPriceIs(c.variants[l.variant], c.products[l.product], SumOf(lines, OfProduct(l.product)));
  }

  /** Three caps at 2000 with a tier of 1500 from three on cost 1500 each. */
  lemma ThirdCap()
    ensures UnitPrice(VariantInfo("p", Some(2000), 0), ProductInfo(None, true, [Tier(3.0, 1500, true)], true, None), 3) == Some(1500)
    ensures UnitPrice(VariantInfo("p", Some(2000), 0), ProductInfo(None, true, [Tier(3.0, 1500, true)], true, None), 2) == Some(2000)
  {
    var tiers := [Tier(3.0, 1500, true)];
    assert AtTier(tiers[0], 3, 3);
    UnitPriceIs(VariantInfo("p", Some(2000), 0), ProductInfo(None, true, tiers, true, None), 3);
    UnitPriceIs(VariantInfo("p", Some(2000), 0), ProductInfo(None, true, tiers, true, None), 2);
  }

  // ── Refusals ───────────────────────────────────────────────────────────

  /** The embroidery key of a request: none on a plain one. */
  predicate KeyOf(d: DesignRequest, hash: string) {
    match d
    case Resolved(h, _) => hash == h
    case _ => hash == ""
  }

  /** The first line of this variant and embroidery, if the cart has one. */
  predicate Present(lines: seq<CartLine>, v: string, hash: string, i: nat) {
    && i < |lines| && lines[i].variant == v && lines[i].hash == hash
    && forall j :: 0 <= j < i ==> !(lines[j].variant == v && lines[j].hash == hash)
  }

  /** The units asked for and those on the line they would join exceed the stock. */
  ghost predicate TooMany(lines: seq<CartLine>, v: string, hash: string, quantity: nat, available: int) {
    exists i: nat :: Present(lines, v, hash, i) && available < lines[i].quantity + quantity
  }

  lemma {:induction false} FindSameIff(lines: seq<CartLine>, v: string, hash: string, i: nat)
    ensures FindSame(lines, v, hash) == Some(i) <==> Present(lines, v, hash, i)
  {
    if lines != [] {
      var n := |lines| - 1;
      FindSameIff(lines[..n], v, hash, i);
      assert Present(lines[..n], v, hash, i) <==> Present(lines, v, hash, i) && i < n;
    }
  }

  ghost predicate OneBrand(c: Catalogue, lines: seq<CartLine>, brand: Option<string>) {
    forall i :: 0 <= i < |lines| && lines[i].product in c.products ==> c.products[lines[i].product].brand == brand
  }

  /**
   * An add is refused, and changes nothing, in exactly these cases, and in this
   * order: no units; an unknown variant; a product off sale; less stock than
   * asked for; a design refused; another store's product in the cart; less
   * stock than asked for and in the cart already, on the line the units would
   * join; a negative price.
   */
  lemma AddedRefusal(c: Catalogue, b: Basket, v: string, quantity: nat, d: DesignRequest, stock: map<string, int>, hash: string)
    requires Complete(c) && KeyOf(d, hash)
    ensures var r := Added(c, b, v, quantity, d, stock);
            && (r.error.Some? ==> r.basket == b)
            && r.error ==
               if quantity == 0 then Some(BadQuantity)
               else if v !in c.variants then Some(VariantNotFound)
               else
                 var info, p := c.variants[v], c.products[c.variants[v].product];
                 if !p.active then Some(ProductUnavailable)
                 else if v !in stock then Some(InsufficientStock(0))
                 else if stock[v] < quantity then Some(InsufficientStock(stock[v]))
                 else if d.Refused? then Some(DesignRefused)
                 else if !OneBrand(c, b.lines, p.brand) then Some(OtherStoreInCart)
                 else if TooMany(b.lines, v, hash, quantity, stock[v]) then Some(InsufficientStock(stock[v]))
                 else if OwnPrice(info, p) < 0 then Some(PriceNegative)
                 else None
  {
    forall i: nat ensures FindSame(b.lines, v, hash) == Some(i) <==> Present(b.lines, v, hash, i) { FindSameIff(b.lines, v, hash, i); }
    if v in c.variants { assert OneBrand(c, b.lines, c.products[c.variants[v].product].brand) <==> !OtherStore(c, b.lines, c.products[c.variants[v].product].brand); }
  }

  // ── What the calls leave ───────────────────────────────────────────────

  /** An accepted add grows the line it joins, or appends one with the fee of its embroidery; prices are `SessionPrices`'. */
  lemma AddedLeaves(c: Catalogue, b: Basket, v: string, quantity: nat, d: DesignRequest, stock: map<string, int>, hash: string)
    requires Complete(c) && KeyOf(d, hash) && Added(c, b, v, quantity, d, stock).error.None?
    ensures var b' := Added(c, b, v, quantity, d, stock).basket;
            && v in c.variants
            && (forall i: nat :: Present(b.lines, v, hash, i) ==>
                  && SameButPrices(b.lines[i := b.lines[i].(quantity := b.lines[i].quantity + quantity)], b'.lines) && b'.nextId == b.nextId)
            && ((forall i: nat :: !Present(b.lines, v, hash, i)) ==>
                  var fee := match d case Resolved(_, f) => f case _ => 0;
                  && SameButPrices(b.lines + [CartLine(b.nextId, v, c.variants[v].product, quantity, 0, fee, hash)], b'.lines)
                  && b'.nextId == b.nextId + 1)
  {
    forall i: nat ensures FindSame(b.lines, v, hash) == Some(i) <==> Present(b.lines, v, hash, i) { FindSameIff(b.lines, v, hash, i); }
    var b1 := AddedLine(c, b, v, quantity, d, stock).value;
    RepricedSameButPrices(c, b1.lines, c.variants[v].product);
  }

  /** A removal takes exactly the line with that id; without one it is refused. */
  lemma RemovedLeaves(c: Catalogue, b: Basket, id: nat, i: nat)
    requires Filed(c, b)
    ensures (forall j :: 0 <= j < |b.lines| ==> b.lines[j].id != id) ==> Removed(c, b, id) == Outcome(b, Some(ItemNotFound))
    ensures i < |b.lines| && b.lines[i].id == id ==>
              var r := Removed(c, b, id);
              r.error.None? && SameButPrices(b.lines[..i] + b.lines[i + 1..], r.basket.lines) && r.basket.nextId == b.nextId
  {
    if i < |b.lines| && b.lines[i].id == id {
      UniqueId(c, b, i);
      RepricedSameButPrices(c, Without(b.lines, i), b.lines[i].product);
    }
  }

  /** The first line with this id. */
  predicate FirstWithId(lines: seq<CartLine>, id: nat, i: nat) {
    i < |lines| && lines[i].id == id && forall j :: 0 <= j < i ==> lines[j].id != id
  }

  lemma {:induction false} FindLineIff(lines: seq<CartLine>, id: nat, i: nat)
    ensures FindLine(lines, id) == Some(i) <==> FirstWithId(lines, id, i)
  {
    if lines != [] {
      var n := |lines| - 1;
      FindLineIff(lines[..n], id, i);
      assert FirstWithId(lines[..n], id, i) <==> FirstWithId(lines, id, i) && i < n;
    }
  }

  /**
   * On any basket, a new quantity is refused for missing stock, for a line the
   * catalogue no longer knows, and for a negative price, in this order; a
   * refusal changes nothing.
   */
  lemma UpdatedRefusal(c: Catalogue, b: Basket, id: nat, quantity: int, stock: map<string, int>, i: nat)
    requires quantity >= 1 && FirstWithId(b.lines, id, i)
    ensures var r, l := Updated(c, b, id, quantity, stock), b.lines[i];
            && (r.error.Some? ==> r.basket == b)
            && r.error ==
               if l.variant !in stock then Some(InsufficientStock(0))
               else if stock[l.variant] < quantity then Some(InsufficientStock(stock[l.variant]))
               else if l.variant !in c.variants || l.product !in c.products then Some(ProductUnavailable)
               else if OwnPrice(c.variants[l.variant], c.products[l.product]) < 0 then Some(PriceNegative)
               else None
  {
    FindLineIff(b.lines, id, i);
  }

  /** Below one, a new quantity is a removal; an unknown line is refused. */
  lemma UpdatedRemoves(c: Catalogue, b: Basket, id: nat, quantity: int, stock: map<string, int>)
    ensures quantity < 1 ==> Updated(c, b, id, quantity, stock) == Removed(c, b, id)
    ensures quantity >= 1 && (forall j :: 0 <= j < |b.lines| ==> b.lines[j].id != id) ==>
              Updated(c, b, id, quantity, stock) == Outcome(b, Some(ItemNotFound))
  {
  }

  /** On a sound basket a new quantity is refused for missing stock alone; otherwise the line has it, and only prices change besides. */
  lemma UpdatedLeaves(c: Catalogue, b: Basket, id: nat, quantity: int, stock: map<string, int>, i: nat)
    requires Sound(c, b) && quantity >= 1 && i < |b.lines| && b.lines[i].id == id
    ensures var r, v := Updated(c, b, id, quantity, stock), b.lines[i].variant;
            if v !in stock then r == Outcome(b, Some(InsufficientStock(0)))
            else if stock[v] < quantity then r == Outcome(b, Some(InsufficientStock(stock[v])))
            else r.error.None? && SameButPrices(b.lines[i := b.lines[i].(quantity := quantity)], r.basket.lines) && r.basket.nextId == b.nextId
  {
    UniqueId(c, b, i);
    var was := b.lines[i];
    assert Catalogued(c, was);
    var price := UnitPrice(c.variants[was.variant], c.products[was.product], quantity);
    if price.Some? { RepricedKeeps(c, b.lines, i, was.(quantity := quantity, unitPrice := price.value + was.fee), quantity); }
  }

  lemma RepricedKeeps(c: Catalogue, lines: seq<CartLine>, i: nat, l: CartLine, quantity: nat)
    requires i < |lines| && l == lines[i].(quantity := quantity, unitPrice := l.unitPrice)
    ensures SameButPrices(lines[i := lines[i].(quantity := quantity)], Repriced(c, lines[i := l], l.product))
  {
    RepricedSameButPrices(c, lines[i := l], l.product);
  }
}
