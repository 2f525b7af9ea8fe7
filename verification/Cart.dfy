/**
 * Cart lines and quantity-tier prices: src/cart/cart.service.ts, priced by
 * src/pricing/variant-price.util.ts and checked against
 * OrdersService.verifyCartItemPrices (src/orders/orders.service.ts).
 *
 * The catalogue is fixed; `stock` is the available quantity each call reads.
 */
module Cart {
  import opened Common

  // ── Prices ─────────────────────────────────────────────────────────────

  /** Thresholds come out of JSON and may be fractional; those never apply. */
  datatype Tier = Tier(quantity: real, unitPrice: nat, active: bool)

  datatype VariantInfo = VariantInfo(product: string, price: Option<nat>, optionAdjustment: int)

  datatype ProductInfo = ProductInfo(basePrice: Option<nat>, upselling: bool, tiers: seq<Tier>, active: bool, brand: Option<string>)

  datatype Catalogue = Catalogue(variants: map<string, VariantInfo>, products: map<string, ProductInfo>)

  /** Every variant's product row exists. */
  predicate Complete(c: Catalogue) {
    forall v :: v in c.variants ==> c.variants[v].product in c.products
  }

  predicate Reached(t: Tier, quantity: int) {
    t.active && t.quantity.Floor as real == t.quantity && t.quantity <= quantity as real
  }

  /** Tier i is the highest one reached, and the first of its threshold. */
  ghost predicate Wins(tiers: seq<Tier>, quantity: int, i: nat)
    requires i < |tiers|
  {
    && Reached(tiers[i], quantity)
    && forall j :: 0 <= j < |tiers| && Reached(tiers[j], quantity) ==>
                     if j < i then tiers[j].quantity < tiers[i].quantity else tiers[j].quantity <= tiers[i].quantity
  }

  function BestTier(tiers: seq<Tier>, quantity: int): (r: Option<nat>)
    ensures r.None? ==> forall i :: 0 <= i < |tiers| ==> !Reached(tiers[i], quantity)
    ensures r.Some? ==> r.value < |tiers| && Wins(tiers, quantity, r.value)
  {
    if tiers == [] then None
    else
      var n := |tiers| - 1;
      var earlier := BestTier(tiers[..n], quantity);
      if !Reached(tiers[n], quantity) then earlier
      else if earlier.Some? && tiers[earlier.value].quantity >= tiers[n].quantity then earlier
      else Some(n)
  }

  /** The variant's own price, else base plus adjustments; a negative result is refused. */
  function VariantPrice(v: VariantInfo, p: ProductInfo): Option<nat> {
    if v.price.Some? then v.price
    else
      var computed := (if p.basePrice.Some? then p.basePrice.value else 0) + v.optionAdjustment;
      if computed < 0 then None else Some(computed)
  }

  function UnitPrice(v: VariantInfo, p: ProductInfo, quantity: int): Option<nat> {
    var base := VariantPrice(v, p);
    if base.None? || !p.upselling then base
    else
      var best := BestTier(p.tiers, quantity);
      if best.Some? then Some(p.tiers[best.value].unitPrice) else base
  }

  // ── Baskets ────────────────────────────────────────────────────────────

  /** `fee` is the embroidery fee per unit, already inside unitPrice; `hash` is "" on a plain line. */
  datatype CartLine = CartLine(id: nat, variant: string, product: string, quantity: nat, unitPrice: nat, fee: nat, hash: string)

  datatype Basket = Basket(lines: seq<CartLine>, nextId: nat)

  /** What the customer asked to have embroidered, after validation. */
  datatype DesignRequest = Plain | Refused | Resolved(hash: string, fee: nat)

  datatype CartError = BadQuantity | VariantNotFound | ProductUnavailable | InsufficientStock(available: int) | DesignRefused
                     | OtherStoreInCart | PriceNegative | ItemNotFound | AlreadyPersonalised | LineQuantityChanged | NotPersonalised
                     | PriceChanged(variant: string)

  /** What a call leaves behind, and the exception it ended with, if any. */
  datatype Outcome = Outcome(basket: Basket, error: Option<CartError>)

  function SumOf(lines: seq<CartLine>, f: CartLine -> nat): nat {
    if lines == [] then 0 else SumOf(lines[..|lines| - 1], f) + f(lines[|lines| - 1])
  }

  lemma SumOfGrows(lines: seq<CartLine>, n: nat, f: CartLine -> nat)
    requires n < |lines|
    ensures SumOf(lines[..n + 1], f) == SumOf(lines[..n], f) + f(lines[n])
  {
    assert lines[..n + 1][..n] == lines[..n];
  }

  function OfProduct(p: string): CartLine -> nat {
    (l: CartLine) => if l.product == p then l.quantity else 0
  }

  function OfVariant(v: string): CartLine -> nat {
    (l: CartLine) => if l.variant == v then l.quantity else 0
  }

  function FindLine(lines: seq<CartLine>, id: nat): (r: Option<nat>)
    ensures r.Some? ==> r.value < |lines| && lines[r.value].id == id
    ensures r.None? ==> forall i :: 0 <= i < |lines| ==> lines[i].id != id
  {
    if lines == [] then None
    else
      var earlier := FindLine(lines[..|lines| - 1], id);
      if earlier.Some? then earlier else if lines[|lines| - 1].id == id then Some(|lines| - 1) else None
  }

  predicate Same(l: CartLine, v: string, hash: string) {
    l.variant == v && l.hash == hash
  }

  function FindSame(lines: seq<CartLine>, v: string, hash: string): (r: Option<nat>)
    ensures r.Some? ==> r.value < |lines| && Same(lines[r.value], v, hash)
    ensures r.None? ==> forall i :: 0 <= i < |lines| ==> !Same(lines[i], v, hash)
  {
    if lines == [] then None
    else
      var earlier := FindSame(lines[..|lines| - 1], v, hash);
      if earlier.Some? then earlier else if Same(lines[|lines| - 1], v, hash) then Some(|lines| - 1) else None
  }

  function Without(lines: seq<CartLine>, i: nat): seq<CartLine>
    requires i < |lines|
  {
    lines[..i] + lines[i + 1..]
  }

  // ── Repricing ──────────────────────────────────────────────────────────

  function RepricedLine(c: Catalogue, l: CartLine, p: string, total: nat): CartLine {
    if l.product != p || p !in c.products || l.variant !in c.variants then l
    else
      var price := UnitPrice(c.variants[l.variant], c.products[p], total);
      if price.None? then l else l.(unitPrice := price.value + l.fee)
  }

  /** Settles every line of one product against their combined quantity. */
  function Repriced(c: Catalogue, lines: seq<CartLine>, p: string): seq<CartLine> {
    if p !in c.products || !c.products[p].upselling then lines
    else seq(|lines|, i requires 0 <= i < |lines| => RepricedLine(c, lines[i], p, SumOf(lines, OfProduct(p))))
  }

  // ── Operations ─────────────────────────────────────────────────────────

  function AvailableOf(stock: map<string, int>, v: string): int {
    if v in stock then stock[v] else 0
  }

  function HashOf(d: DesignRequest): string {
    if d.Resolved? then d.hash else ""
  }

  /** A cart holds one store brand's products. */
  predicate OtherStore(c: Catalogue, lines: seq<CartLine>, brand: Option<string>) {
    exists i :: 0 <= i < |lines| && lines[i].product in c.products && c.products[lines[i].product].brand != brand
  }

  /** The line an add leaves behind, before the product's lines are settled together. */
  function AddedLine(c: Catalogue, b: Basket, v: string, quantity: nat, d: DesignRequest, stock: map<string, int>): Result<Basket, CartError>
    requires v in c.variants && c.variants[v].product in c.products
  {
    var info, product := c.variants[v], c.products[c.variants[v].product];
    var existing := FindSame(b.lines, v, HashOf(d));
    if existing.Some? then
      var l := b.lines[existing.value];
      var newQty := l.quantity + quantity;
      var price := UnitPrice(info, product, newQty);
      if AvailableOf(stock, v) < newQty then Err(InsufficientStock(AvailableOf(stock, v)))
      else if price.None? then Err(PriceNegative)
      else Ok(b.(lines := b.lines[existing.value := l.(quantity := newQty, unitPrice := price.value + l.fee)]))
    else
      var fee := if d.Resolved? then d.fee else 0;
      var price := UnitPrice(info, product, quantity);
      if price.None? then Err(PriceNegative)
      else Ok(Basket(b.lines + [CartLine(b.nextId, v, info.product, quantity, price.value + fee, fee, HashOf(d))], b.nextId + 1))
  }

  function Added(c: Catalogue, b: Basket, v: string, quantity: nat, d: DesignRequest, stock: map<string, int>): Outcome
    requires Complete(c)
  {
    if quantity < 1 then Outcome(b, Some(BadQuantity))
    else if v !in c.variants then Outcome(b, Some(VariantNotFound))
    else
      var product := c.products[c.variants[v].product];
      if !product.active then Outcome(b, Some(ProductUnavailable))
      else if v !in stock || stock[v] < quantity then Outcome(b, Some(InsufficientStock(AvailableOf(stock, v))))
      else if d.Refused? then Outcome(b, Some(DesignRefused))
      else if OtherStore(c, b.lines, product.brand) then Outcome(b, Some(OtherStoreInCart))
      else
        match AddedLine(c, b, v, quantity, d, stock)
        case Err(e) => Outcome(b, Some(e))
        case Ok(b') => Outcome(b'.(lines := Repriced(c, b'.lines, c.variants[v].product)), None)
  }

  function Removed(c: Catalogue, b: Basket, id: nat): Outcome {
    var found := FindLine(b.lines, id);
    if found.None? then Outcome(b, Some(ItemNotFound))
    else
      var l := b.lines[found.value];
      Outcome(b.(lines := Repriced(c, Without(b.lines, found.value), l.product)), None)
  }

  function Updated(c: Catalogue, b: Basket, id: nat, quantity: int, stock: map<string, int>): Outcome {
    if quantity < 1 then Removed(c, b, id)
    else
      var found := FindLine(b.lines, id);
      if found.None? then Outcome(b, Some(ItemNotFound))
      else
        var l := b.lines[found.value];
        if l.variant !in stock || stock[l.variant] < quantity then Outcome(b, Some(InsufficientStock(AvailableOf(stock, l.variant))))
        else if l.variant !in c.variants || l.product !in c.products then Outcome(b, Some(ProductUnavailable))
        else
          var price := UnitPrice(c.variants[l.variant], c.products[l.product], quantity);
          if price.None? then Outcome(b, Some(PriceNegative))
          else
            var l' := l.(quantity := quantity, unitPrice := price.value + l.fee);
            Outcome(b.(lines := Repriced(c, b.lines[found.value := l'], l.product)), None)
  }

  /** Units sharing a design, in the order the designs were first met. */
  datatype Group = Group(design: DesignRequest, count: nat)

  function FindGroup(groups: seq<Group>, hash: string): (r: Option<nat>)
    ensures r.Some? ==> r.value < |groups| && HashOf(groups[r.value].design) == hash
    ensures r.None? ==> forall i :: 0 <= i < |groups| ==> HashOf(groups[i].design) != hash
  {
    if groups == [] then None
    else
      var earlier := FindGroup(groups[..|groups| - 1], hash);
      if earlier.Some? then earlier else if HashOf(groups[|groups| - 1].design) == hash then Some(|groups| - 1) else None
  }

  function WithUnit(groups: seq<Group>, d: DesignRequest): seq<Group> {
    var found := FindGroup(groups, HashOf(d));
    if found.None? then groups + [Group(d, 1)]
    else groups[found.value := groups[found.value].(count := groups[found.value].count + 1)]
  }

  /** The groups of the first n units. */
  function GroupedTo(units: seq<DesignRequest>, n: nat): seq<Group>
    requires n <= |units|
  {
    if n == 0 then [] else WithUnit(GroupedTo(units, n - 1), units[n - 1])
  }

  lemma GroupedNext(units: seq<DesignRequest>, n: nat)
    requires n < |units|
    ensures GroupedTo(units, n + 1) == WithUnit(GroupedTo(units, n), units[n])
  {
  }

  function Grouped(units: seq<DesignRequest>): seq<Group> {
    GroupedTo(units, |units|)
  }

  /** One add per group; the first refusal stops the loop and is not undone. */
  function AddedGroups(c: Catalogue, b: Basket, v: string, groups: seq<Group>, stock: map<string, int>): Outcome
    requires Complete(c)
  {
    if groups == [] then Outcome(b, None)
    else
      var before := AddedGroups(c, b, v, groups[..|groups| - 1], stock);
      var g := groups[|groups| - 1];
      if before.error.Some? then before else Added(c, before.basket, v, g.count, g.design, stock)
  }

  /** Takes n units off a line, or the line itself when none remain, and settles the product. */
  function TakenOff(c: Catalogue, b: Basket, l: CartLine, n: nat): Basket {
    var found := FindLine(b.lines, l.id);
    if found.None? then b
    else
      var lines := if l.quantity > n then b.lines[found.value := b.lines[found.value].(quantity := l.quantity - n)]
                   else Without(b.lines, found.value);
      b.(lines := Repriced(c, lines, l.product))
  }

  predicate AnyRefused(units: seq<DesignRequest>) {
    exists i :: 0 <= i < |units| && units[i].Refused?
  }

  predicate NoneRefused(units: seq<DesignRequest>, n: nat)
    requires n <= |units|
  {
    forall i :: 0 <= i < n ==> !units[i].Refused?
  }

  function Personalised(c: Catalogue, b: Basket, id: nat, units: seq<DesignRequest>, stock: map<string, int>): Outcome
    requires Complete(c)
  {
    var found := FindLine(b.lines, id);
    if found.None? then Outcome(b, Some(ItemNotFound))
    else
      var l := b.lines[found.value];
      if l.hash != "" then Outcome(b, Some(AlreadyPersonalised))
      else if |units| > l.quantity then Outcome(b, Some(LineQuantityChanged))
      else if AnyRefused(units) then Outcome(b, Some(DesignRefused))
      else
        var added := AddedGroups(c, b, l.variant, Grouped(units), stock);
        if added.error.Some? then added else Outcome(TakenOff(c, added.basket, l, |units|), None)
  }

  /** Moves every unit of a line onto another design, adding the new line before the old one goes. */
  function Moved(c: Catalogue, b: Basket, l: CartLine, d: DesignRequest, stock: map<string, int>): Outcome
    requires Complete(c)
  {
    var added := Added(c, b, l.variant, l.quantity, d, stock);
    if added.error.Some? then added else Outcome(TakenOff(c, added.basket, l, l.quantity), None)
  }

  function Redesigned(c: Catalogue, b: Basket, id: nat, d: DesignRequest, stock: map<string, int>): Outcome
    requires Complete(c)
  {
    var found := FindLine(b.lines, id);
    if found.None? then Outcome(b, Some(ItemNotFound))
    else
      var l := b.lines[found.value];
      if l.hash == "" then Outcome(b, Some(NotPersonalised))
      else if d.Refused? then Outcome(b, Some(DesignRefused))
      else if HashOf(d) == l.hash then Outcome(b, None)
      else Moved(c, b, l, d, stock)
  }

  function DesignRemoved(c: Catalogue, b: Basket, id: nat, stock: map<string, int>): Outcome
    requires Complete(c)
  {
    var found := FindLine(b.lines, id);
    if found.None? then Outcome(b, Some(ItemNotFound))
    else
      var l := b.lines[found.value];
      if l.hash == "" then Outcome(b, None) else Moved(c, b, l, Plain, stock)
  }

  // ── Checkout's verification ────────────────────────────────────────────

  /** The price verification recomputes for a line from the product's total quantity. */
  predicate PriceRight(c: Catalogue, lines: seq<CartLine>, l: CartLine) {
    && l.variant in c.variants && l.product in c.products
    && c.products[l.product].active
    && var price := UnitPrice(c.variants[l.variant], c.products[l.product], SumOf(lines, OfProduct(l.product)));
      price.Some? && l.unitPrice == price.value + l.fee
  }

  /** Total quantity per product across the lines. */
  method TierQuantities(lines: seq<CartLine>) returns (totals: map<string, nat>)
    ensures forall i :: 0 <= i < |lines| ==> lines[i].product in totals
    ensures forall p :: p in totals ==> totals[p] == SumOf(lines, OfProduct(p))
  {
    totals := map[];
    for n := 0 to |lines|
      invariant forall i :: 0 <= i < n ==> lines[i].product in totals
      invariant forall p :: p in totals ==> totals[p] == SumOf(lines[..n], OfProduct(p))
      invariant forall p :: p !in totals ==> SumOf(lines[..n], OfProduct(p)) == 0
    {
      var p := lines[n].product;
      forall q ensures SumOf(lines[..n + 1], OfProduct(q)) == SumOf(lines[..n], OfProduct(q)) + OfProduct(q)(lines[n]) {
        SumOfGrows(lines, n, OfProduct(q));
      }
      totals := totals[p := (if p in totals then totals[p] else 0) + lines[n].quantity];
    }
    assert lines[..|lines|] == lines;
  }

  /** Checkout accepts a cart exactly when every stored price is the recomputed one. */
  method VerifyPrices(c: Catalogue, lines: seq<CartLine>) returns (error: Option<CartError>)
    ensures error.None? <==> forall i :: 0 <= i < |lines| ==> PriceRight(c, lines, lines[i])
  {
    var totals := TierQuantities(lines);
    for n := 0 to |lines|
      invariant forall i :: 0 <= i < n ==> PriceRight(c, lines, lines[i])
    {
      var l := lines[n];
      if l.variant !in c.variants { return Some(VariantNotFound); }
      if l.product !in c.products || !c.products[l.product].active { return Some(ProductUnavailable); }
      var price := UnitPrice(c.variants[l.variant], c.products[l.product], totals[l.product]);
      if price.None? { return Some(PriceNegative); }
      if price.value + l.fee != l.unitPrice { return Some(PriceChanged(l.variant)); }
    }
    return None;
  }

  // ── The service ────────────────────────────────────────────────────────

  class CartService {
    const catalogue: Catalogue
    var lines: seq<CartLine>
    var nextId: nat

    function View(): Basket
      reads this
    {
      Basket(lines, nextId)
    }

    constructor (catalogue: Catalogue)
      ensures this.catalogue == catalogue && View() == Basket([], 0)
    {
      this.catalogue := catalogue;
      lines, nextId := [], 0;
    }

    method RepriceProductLines(p: string)
      modifies this`lines
      ensures lines == Repriced(catalogue, old(lines), p)
    {
      if p !in catalogue.products || !catalogue.products[p].upselling { return; }
      var total := SumOf(lines, OfProduct(p));
      for n := 0 to |lines|
        invariant |lines| == |old(lines)|
        invariant forall i :: 0 <= i < n ==> lines[i] == RepricedLine(catalogue, old(lines)[i], p, total)
        invariant forall i :: n <= i < |lines| ==> lines[i] == old(lines)[i]
      {
        lines := lines[n := RepricedLine(catalogue, lines[n], p, total)];
      }
    }

    /** Merges into the line of the same variant and design, or appends one. */
    method PutLine(v: string, quantity: nat, d: DesignRequest, stock: map<string, int>) returns (error: Option<CartError>)
      requires v in catalogue.variants && catalogue.variants[v].product in catalogue.products && v in stock
      modifies this
      ensures match AddedLine(catalogue, old(View()), v, quantity, d, stock)
              case Ok(b) => error.None? && View() == b
              case Err(e) => error == Some(e) && View() == old(View())
    {
      var info := catalogue.variants[v];
      var product := catalogue.products[info.product];
      var existing := FindSame(lines, v, HashOf(d));
      if existing.Some? {
        var l := lines[existing.value];
        var newQty := l.quantity + quantity;
        if stock[v] < newQty { return Some(InsufficientStock(stock[v])); }
        var price := UnitPrice(info, product, newQty);
        if price.None? { return Some(PriceNegative); }
        lines := lines[existing.value := l.(quantity := newQty, unitPrice := price.value + l.fee)];
      } else {
        var fee := if d.Resolved? then d.fee else 0;
        var price := UnitPrice(info, product, quantity);
        if price.None? { return Some(PriceNegative); }
        lines := lines + [CartLine(nextId, v, info.product, quantity, price.value + fee, fee, HashOf(d))];
        nextId := nextId + 1;
      }
      return None;
    }

    method AddItem(v: string, quantity: nat, d: DesignRequest, stock: map<string, int>) returns (error: Option<CartError>)
      requires Complete(catalogue)
      modifies this
      ensures Outcome(View(), error) == Added(catalogue, old(View()), v, quantity, d, stock)
    {
      if quantity < 1 { return Some(BadQuantity); }
      if v !in catalogue.variants { return Some(VariantNotFound); }
      var p := catalogue.variants[v].product;
      var product := catalogue.products[p];
      if !product.active { return Some(ProductUnavailable); }
      if v !in stock || stock[v] < quantity { return Some(InsufficientStock(AvailableOf(stock, v))); }
      if d.Refused? { return Some(DesignRefused); }
      if OtherStore(catalogue, lines, product.brand) { return Some(OtherStoreInCart); }
      error := PutLine(v, quantity, d, stock);
      if error.Some? { return; }
      RepriceProductLines(p);
      return None;
    }

    method RemoveItem(id: nat) returns (error: Option<CartError>)
      modifies this`lines
      ensures Outcome(View(), error) == Removed(catalogue, old(View()), id)
    {
      var found := FindLine(lines, id);
      if found.None? { return Some(ItemNotFound); }
      var product := lines[found.value].product;
      lines := lines[..found.value] + lines[found.value + 1..];
      RepriceProductLines(product);
      return None;
    }

    method UpdateItem(id: nat, quantity: int, stock: map<string, int>) returns (error: Option<CartError>)
      modifies this`lines
      ensures Outcome(View(), error) == Updated(catalogue, old(View()), id, quantity, stock)
    {
      if quantity < 1 {
        error := RemoveItem(id);
        return;
      }
      var found := FindLine(lines, id);
      if found.None? { return Some(ItemNotFound); }
      var l := lines[found.value];
      if l.variant !in stock || stock[l.variant] < quantity { return Some(InsufficientStock(AvailableOf(stock, l.variant))); }
      if l.variant !in catalogue.variants || l.product !in catalogue.products { return Some(ProductUnavailable); }
      var price := UnitPrice(catalogue.variants[l.variant], catalogue.products[l.product], quantity);
      if price.None? { return Some(PriceNegative); }
      lines := lines[found.value := l.(quantity := quantity, unitPrice := price.value + l.fee)];
      ghost var updated := lines;
      RepriceProductLines(l.product);
      assert View() == old(View()).(lines := Repriced(catalogue, updated, l.product));
      return None;
    }

    /** Writes the reduced quantity, or deletes the line, by its id. */
    method TakeOff(l: CartLine, n: nat)
      modifies this`lines
      ensures View() == TakenOff(catalogue, old(View()), l, n)
    {
      var found := FindLine(lines, l.id);
      if found.None? { return; }
      if l.quantity > n {
        lines := lines[found.value := lines[found.value].(quantity := l.quantity - n)];
      } else {
        lines := lines[..found.value] + lines[found.value + 1..];
      }
      RepriceProductLines(l.product);
    }

    /** Validates every design before anything moves; None when one is refused. */
    method GroupUnits(units: seq<DesignRequest>) returns (groups: Option<seq<Group>>)
      ensures groups.None? <==> AnyRefused(units)
      ensures groups.Some? ==> groups.value == Grouped(units)
    {
      var met: seq<Group> := [];
      for n := 0 to |units|
        invariant met == GroupedTo(units, n)
        invariant NoneRefused(units, n)
      {
        if units[n].Refused? { return None; }
        met := WithUnit(met, units[n]);
        GroupedNext(units, n);
      }
      return Some(met);
    }

    method AddGroups(v: string, groups: seq<Group>, stock: map<string, int>) returns (error: Option<CartError>)
      requires Complete(catalogue)
      modifies this
      ensures Outcome(View(), error) == AddedGroups(catalogue, old(View()), v, groups, stock)
    {
      for n := 0 to |groups|
        invariant AddedGroups(catalogue, old(View()), v, groups[..n], stock) == Outcome(View(), None)
      {
        assert groups[..n + 1][..n] == groups[..n];
        error := AddItem(v, groups[n].count, groups[n].design, stock);
        if error.Some? {
          AddedGroupsStop(catalogue, old(View()), v, groups, n + 1, stock);
          return;
        }
      }
      assert groups[..|groups|] == groups;
      return None;
    }

    method PersonaliseItem(id: nat, units: seq<DesignRequest>, stock: map<string, int>) returns (error: Option<CartError>)
      requires Complete(catalogue)
      modifies this
      ensures Outcome(View(), error) == Personalised(catalogue, old(View()), id, units, stock)
    {
      var found := FindLine(lines, id);
      if found.None? { return Some(ItemNotFound); }
      var l := lines[found.value];
      if l.hash != "" { return Some(AlreadyPersonalised); }
      if |units| > l.quantity { return Some(LineQuantityChanged); }
      var groups := GroupUnits(units);
      if groups.None? { return Some(DesignRefused); }
      error := AddGroups(l.variant, groups.value, stock);
      if error.Some? { return; }
      TakeOff(l, |units|);
      return None;
    }

    method ReplaceItemDesign(id: nat, d: DesignRequest, stock: map<string, int>) returns (error: Option<CartError>)
      requires Complete(catalogue)
      modifies this
      ensures Outcome(View(), error) == Redesigned(catalogue, old(View()), id, d, stock)
    {
      var found := FindLine(lines, id);
      if found.None? { return Some(ItemNotFound); }
      var l := lines[found.value];
      if l.hash == "" { return Some(NotPersonalised); }
      if d.Refused? { return Some(DesignRefused); }
      if HashOf(d) == l.hash { return None; }
      error := AddItem(l.variant, l.quantity, d, stock);
      if error.Some? { return; }
      TakeOff(l, l.quantity);
    }

    method RemoveItemDesign(id: nat, stock: map<string, int>) returns (error: Option<CartError>)
      requires Complete(catalogue)
      modifies this
      ensures Outcome(View(), error) == DesignRemoved(catalogue, old(View()), id, stock)
    {
      var found := FindLine(lines, id);
      if found.None? { return Some(ItemNotFound); }
      var l := lines[found.value];
      if l.hash == "" { return None; }
      error := AddItem(l.variant, l.quantity, Plain, stock);
      if error.Some? { return; }
      TakeOff(l, l.quantity);
    }
  }

  /** Once a group is refused, the groups after it are never tried. */
  lemma {:induction false} AddedGroupsStop(c: Catalogue, b: Basket, v: string, groups: seq<Group>, n: nat, stock: map<string, int>)
    requires Complete(c) && n <= |groups| && AddedGroups(c, b, v, groups[..n], stock).error.Some?
    ensures AddedGroups(c, b, v, groups, stock) == AddedGroups(c, b, v, groups[..n], stock)
  {
    if n == |groups| {
      assert groups[..n] == groups;
    } else {
      assert groups[..|groups| - 1][..n] == groups[..n];
      AddedGroupsStop(c, b, v, groups[..|groups| - 1], n, stock);
    }
  }
}
