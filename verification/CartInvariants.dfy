/**
 * What every cart operation keeps: one line per variant and design, units
 * conserved when embroidery moves them, and stored prices that checkout's
 * verification always accepts.
 */
module CartInvariants {
  import opened Common
  import opened Cart

  // ── Sums over lines ────────────────────────────────────────────────────

  lemma {:induction false} SumOfUpdate(lines: seq<CartLine>, i: nat, l: CartLine, f: CartLine -> nat)
    requires i < |lines|
    ensures SumOf(lines[i := l], f) == SumOf(lines, f) - f(lines[i]) + f(l)
    ensures f(lines[i]) <= SumOf(lines, f)
  {
    var n := |lines| - 1;
    if i < n {
      assert lines[i := l][..n] == lines[..n][i := l];
      SumOfUpdate(lines[..n], i, l, f);
    } else {
      assert lines[i := l][..n] == lines[..n];
    }
  }

  lemma SumOfAppend(lines: seq<CartLine>, l: CartLine, f: CartLine -> nat)
    ensures SumOf(lines + [l], f) == SumOf(lines, f) + f(l)
  {
    assert (lines + [l])[..|lines|] == lines;
  }

  lemma {:induction false} SumOfWithout(lines: seq<CartLine>, i: nat, f: CartLine -> nat)
    requires i < |lines|
    ensures SumOf(Without(lines, i), f) == SumOf(lines, f) - f(lines[i])
  {
    var n := |lines| - 1;
    if i < n {
      assert Without(lines, i)[..n - 1] == Without(lines[..n], i);
      SumOfWithout(lines[..n], i, f);
    } else {
      assert Without(lines, i) == lines[..n];
    }
  }

  /** Two lists of lines that differ in prices only. */
  ghost predicate SameButPrices(a: seq<CartLine>, b: seq<CartLine>) {
    |a| == |b| && forall i :: 0 <= i < |a| ==> b[i] == a[i].(unitPrice := b[i].unitPrice)
  }

  lemma {:induction false} SumIgnoresPrices(a: seq<CartLine>, b: seq<CartLine>, f: CartLine -> nat)
    requires SameButPrices(a, b)
    requires forall l: CartLine, price: nat :: f(l.(unitPrice := price)) == f(l)
    ensures SumOf(a, f) == SumOf(b, f)
  {
    if a != [] {
      var n := |a| - 1;
      SumIgnoresPrices(a[..n], b[..n], f);
      assert b[n] == a[n].(unitPrice := b[n].unitPrice);
    }
  }

  // ── The invariant ──────────────────────────────────────────────────────

  predicate Catalogued(c: Catalogue, l: CartLine) {
    && l.variant in c.variants && l.product == c.variants[l.variant].product && l.product in c.products
    && c.products[l.product].active
    && VariantPrice(c.variants[l.variant], c.products[l.product]).Some?
    && 1 <= l.quantity
  }

  /** Different lines have different ids, and never the same variant with the same design; all one brand. */
  ghost predicate Apart(c: Catalogue, a: CartLine, b: CartLine)
    requires Catalogued(c, a) && Catalogued(c, b)
  {
    a.id != b.id && !Same(a, b.variant, b.hash) && c.products[a.product].brand == c.products[b.product].brand
  }

  ghost predicate Filed(c: Catalogue, b: Basket) {
    && Complete(c)
    && (forall i :: 0 <= i < |b.lines| ==> Catalogued(c, b.lines[i]) && b.lines[i].id < b.nextId)
    && (forall i, j :: 0 <= i < j < |b.lines| ==> Apart(c, b.lines[i], b.lines[j]))
  }

  ghost predicate AllRight(c: Catalogue, lines: seq<CartLine>) {
    forall i :: 0 <= i < |lines| ==> PriceRight(c, lines, lines[i])
  }

  ghost predicate Sound(c: Catalogue, b: Basket) {
    Filed(c, b) && AllRight(c, b.lines)
  }

  /** Only lines of an upselling product p may await settling. */
  ghost predicate Unsettled(c: Catalogue, lines: seq<CartLine>, p: string) {
    forall i :: 0 <= i < |lines| ==>
                  Catalogued(c, lines[i]) && (lines[i].product != p || !c.products[p].upselling ==> PriceRight(c, lines, lines[i]))
  }

  lemma RepricedSameButPrices(c: Catalogue, lines: seq<CartLine>, p: string)
    ensures SameButPrices(lines, Repriced(c, lines, p))
  {
  }

  /** Repricing one product makes every line's stored price the one verification recomputes. */
  lemma RepricedSettles(c: Catalogue, lines: seq<CartLine>, p: string)
    requires Unsettled(c, lines, p)
    ensures AllRight(c, Repriced(c, lines, p))
  {
    var lines' := Repriced(c, lines, p);
    RepricedSameButPrices(c, lines, p);
    forall i | 0 <= i < |lines'| ensures PriceRight(c, lines', lines'[i]) {
      SumIgnoresPrices(lines, lines', OfProduct(lines[i].product));
    }
  }

  lemma RepricedFiled(c: Catalogue, b: Basket, p: string)
    requires Filed(c, b)
    ensures Filed(c, b.(lines := Repriced(c, b.lines, p)))
  {
    var lines' := Repriced(c, b.lines, p);
    RepricedSameButPrices(c, b.lines, p);
    forall i, j | 0 <= i < j < |lines'| ensures Apart(c, lines'[i], lines'[j]) {
      assert Apart(c, b.lines[i], b.lines[j]);
    }
  }

  lemma SettledSound(c: Catalogue, b: Basket, p: string)
    requires Filed(c, b) && Unsettled(c, b.lines, p)
    ensures Sound(c, b.(lines := Repriced(c, b.lines, p)))
  {
    RepricedFiled(c, b, p);
    RepricedSettles(c, b.lines, p);
  }

  /** A line replaced by one of the same product, id and design. */
  lemma ReplacedLine(c: Catalogue, b: Basket, i: nat, l: CartLine)
    requires Sound(c, b) && i < |b.lines|
    requires l == b.lines[i].(quantity := l.quantity, unitPrice := l.unitPrice) && 1 <= l.quantity
    requires !c.products[l.product].upselling ==> l.unitPrice == b.lines[i].unitPrice
    ensures Filed(c, b.(lines := b.lines[i := l])) && Unsettled(c, b.lines[i := l], l.product)
  {
    var lines' := b.lines[i := l];
    forall j, k | 0 <= j < k < |lines'| ensures Apart(c, lines'[j], lines'[k]) {
      assert Apart(c, b.lines[j], b.lines[k]);
    }
    forall j | 0 <= j < |lines'|
      ensures lines'[j].product != l.product || !c.products[l.product].upselling ==> PriceRight(c, lines', lines'[j])
    {
      assert PriceRight(c, b.lines, b.lines[j]);
      SumOfUpdate(b.lines, i, l, OfProduct(lines'[j].product));
    }
  }

  lemma WithoutFiled(c: Catalogue, b: Basket, i: nat)
    requires Filed(c, b) && i < |b.lines|
    ensures Filed(c, b.(lines := Without(b.lines, i)))
  {
    var lines' := Without(b.lines, i);
    forall j, k | 0 <= j < k < |lines'| ensures Apart(c, lines'[j], lines'[k]) {
      assert Apart(c, b.lines[if j < i then j else j + 1], b.lines[if k < i then k else k + 1]);
    }
  }

  lemma DroppedLine(c: Catalogue, b: Basket, i: nat)
    requires Sound(c, b) && i < |b.lines|
    ensures Filed(c, b.(lines := Without(b.lines, i))) && Unsettled(c, Without(b.lines, i), b.lines[i].product)
  {
    var lines', p := Without(b.lines, i), b.lines[i].product;
    WithoutFiled(c, b, i);
    forall j | 0 <= j < |lines'|
      ensures Catalogued(c, lines'[j])
      ensures lines'[j].product != p || !c.products[p].upselling ==> PriceRight(c, lines', lines'[j])
    {
      var l := b.lines[if j < i then j else j + 1];
      assert lines'[j] == l && PriceRight(c, b.lines, l);
      SumOfWithout(b.lines, i, OfProduct(l.product));
    }
  }

  lemma AppendedLine(c: Catalogue, b: Basket, l: CartLine)
    requires Sound(c, b) && Catalogued(c, l) && l.id == b.nextId
    requires FindSame(b.lines, l.variant, l.hash).None? && !OtherStore(c, b.lines, c.products[l.product].brand)
    requires !c.products[l.product].upselling ==> PriceRight(c, [], l)
    ensures Filed(c, Basket(b.lines + [l], b.nextId + 1)) && Unsettled(c, b.lines + [l], l.product)
  {
    var lines' := b.lines + [l];
    forall j, k | 0 <= j < k < |lines'| ensures Apart(c, lines'[j], lines'[k]) {
      if k < |b.lines| {
        assert Apart(c, b.lines[j], b.lines[k]);
      } else {
        assert Catalogued(c, b.lines[j]) && b.lines[j].id < b.nextId && !Same(b.lines[j], l.variant, l.hash);
      }
    }
    forall j | 0 <= j < |lines'|
      ensures lines'[j].product != l.product || !c.products[l.product].upselling ==> PriceRight(c, lines', lines'[j])
    {
      if j < |b.lines| {
        assert PriceRight(c, b.lines, b.lines[j]);
        SumOfAppend(b.lines, l, OfProduct(lines'[j].product));
      }
    }
  }

  lemma AddedSound(c: Catalogue, b: Basket, v: string, quantity: nat, d: DesignRequest, stock: map<string, int>)
    requires Sound(c, b)
    ensures Sound(c, Added(c, b, v, quantity, d, stock).basket)
  {
    if Added(c, b, v, quantity, d, stock).error.None? {
      var b' := AddedLine(c, b, v, quantity, d, stock).value;
      var existing, p := FindSame(b.lines, v, HashOf(d)), c.variants[v].product;
      if existing.Some? {
        assert PriceRight(c, b.lines, b.lines[existing.value]);
        ReplacedLine(c, b, existing.value, b'.lines[existing.value]);
      } else {
        AppendedLine(c, b, b'.lines[|b.lines|]);
      }
      SettledSound(c, b', p);
    }
  }

  /** A line gone, and its product settled. */
  lemma DroppedSound(c: Catalogue, b: Basket, i: nat, b': Basket)
    requires Sound(c, b) && i < |b.lines| && b' == b.(lines := Repriced(c, Without(b.lines, i), b.lines[i].product))
    ensures Sound(c, b')
  {
    DroppedLine(c, b, i);
    SettledSound(c, b.(lines := Without(b.lines, i)), b.lines[i].product);
  }

  /** A line under another quantity and price, and its product settled. */
  lemma RequantifiedSound(c: Catalogue, b: Basket, i: nat, l: CartLine, b': Basket)
    requires Sound(c, b) && i < |b.lines| && l == b.lines[i].(quantity := l.quantity, unitPrice := l.unitPrice) && 1 <= l.quantity
    requires l.product in c.products && (!c.products[l.product].upselling ==> l.unitPrice == b.lines[i].unitPrice)
    requires b' == b.(lines := Repriced(c, b.lines[i := l], l.product))
    ensures Sound(c, b')
  {
    ReplacedLine(c, b, i, l);
    SettledSound(c, b.(lines := b.lines[i := l]), l.product);
  }

  lemma RemovedSound(c: Catalogue, b: Basket, id: nat)
    requires Sound(c, b)
    ensures Sound(c, Removed(c, b, id).basket)
  {
    var found := FindLine(b.lines, id);
    if found.Some? { DroppedSound(c, b, found.value, Removed(c, b, id).basket); }
  }

  /** The line an update writes, when it is accepted. */
  lemma UpdatedLine(c: Catalogue, b: Basket, id: nat, quantity: int, stock: map<string, int>) returns (i: nat, l: CartLine)
    requires 1 <= quantity && Updated(c, b, id, quantity, stock).error.None?
    ensures i < |b.lines| && l == b.lines[i].(quantity := l.quantity, unitPrice := l.unitPrice) && l.quantity == quantity
    ensures l.variant in c.variants && l.product in c.products
    ensures UnitPrice(c.variants[l.variant], c.products[l.product], quantity).Some?
    ensures l.unitPrice == UnitPrice(c.variants[l.variant], c.products[l.product], quantity).value + l.fee
    ensures Updated(c, b, id, quantity, stock).basket == b.(lines := Repriced(c, b.lines[i := l], l.product))
  {
    i := FindLine(b.lines, id).value;
    var was := b.lines[i];
    l := was.(quantity := quantity, unitPrice := UnitPrice(c.variants[was.variant], c.products[was.product], quantity).value + was.fee);
  }

  lemma UpdatedSound(c: Catalogue, b: Basket, id: nat, quantity: int, stock: map<string, int>)
    requires Sound(c, b)
    ensures Sound(c, Updated(c, b, id, quantity, stock).basket)
  {
    if quantity < 1 {
      RemovedSound(c, b, id);
    } else if Updated(c, b, id, quantity, stock).error.None? {
      var i, l := UpdatedLine(c, b, id, quantity, stock);
      assert PriceRight(c, b.lines, b.lines[i]);
      RequantifiedSound(c, b, i, l, Updated(c, b, id, quantity, stock).basket);
    }
  }

  lemma TakenOffBasket(c: Catalogue, b: Basket, l: CartLine, n: nat, i: nat)
    requires FindLine(b.lines, l.id) == Some(i)
    ensures l.quantity > n ==> TakenOff(c, b, l, n) == b.(lines := Repriced(c, b.lines[i := b.lines[i].(quantity := l.quantity - n)], l.product))
    ensures l.quantity <= n ==> TakenOff(c, b, l, n) == b.(lines := Repriced(c, Without(b.lines, i), l.product))
  {
  }

  lemma TakenOffSound(c: Catalogue, b: Basket, l: CartLine, n: nat)
    requires Sound(c, b)
    requires FindLine(b.lines, l.id).Some? ==> b.lines[FindLine(b.lines, l.id).value].product == l.product
    ensures Sound(c, TakenOff(c, b, l, n))
  {
    var found := FindLine(b.lines, l.id);
    if found.Some? {
      var i, b' := found.value, TakenOff(c, b, l, n);
      TakenOffBasket(c, b, l, n, i);
      if l.quantity > n {
        assert Catalogued(c, b.lines[i]);
        RequantifiedSound(c, b, i, b.lines[i].(quantity := l.quantity - n), b');
      } else {
        DroppedSound(c, b, i, b');
      }
    }
  }

  // ── Units ──────────────────────────────────────────────────────────────

  function OfDesign(v: string, hash: string): CartLine -> nat {
    (l: CartLine) => if Same(l, v, hash) then l.quantity else 0
  }

  /** With one line per design, the units of a design are that line's. */
  lemma {:induction false} DesignUnits(lines: seq<CartLine>, v: string, hash: string)
    requires forall i, j :: 0 <= i < j < |lines| ==> !(Same(lines[i], v, hash) && Same(lines[j], v, hash))
    ensures SumOf(lines, OfDesign(v, hash)) ==
            var found := FindSame(lines, v, hash); if found.Some? then lines[found.value].quantity else 0
  {
    if lines != [] {
      DesignUnits(lines[..|lines| - 1], v, hash);
    }
  }

  lemma FiledDesignUnits(c: Catalogue, b: Basket, v: string, hash: string)
    requires Filed(c, b)
    ensures SumOf(b.lines, OfDesign(v, hash)) ==
            var found := FindSame(b.lines, v, hash); if found.Some? then b.lines[found.value].quantity else 0
  {
    forall i, j | 0 <= i < j < |b.lines| ensures !(Same(b.lines[i], v, hash) && Same(b.lines[j], v, hash)) {
      assert Apart(c, b.lines[i], b.lines[j]);
    }
    DesignUnits(b.lines, v, hash);
  }

  lemma AddedLineUnits(c: Catalogue, b: Basket, v: string, quantity: nat, d: DesignRequest, stock: map<string, int>, f: CartLine -> nat, n: nat)
    requires v in c.variants && c.variants[v].product in c.products && AddedLine(c, b, v, quantity, d, stock).Ok?
    requires forall l: CartLine :: Same(l, v, HashOf(d)) ==> f(l) == (if n > 0 then l.quantity else 0)
    requires n == 0 || n == quantity
    ensures SumOf(AddedLine(c, b, v, quantity, d, stock).value.lines, f) == SumOf(b.lines, f) + n
  {
    var lines', existing := AddedLine(c, b, v, quantity, d, stock).value.lines, FindSame(b.lines, v, HashOf(d));
    if existing.Some? {
      SumOfUpdate(b.lines, existing.value, lines'[existing.value], f);
    } else {
      SumOfAppend(b.lines, lines'[|b.lines|], f);
    }
  }

  lemma RepricedUnits(c: Catalogue, lines: seq<CartLine>, p: string, f: CartLine -> nat)
    requires forall l: CartLine, price: nat :: f(l.(unitPrice := price)) == f(l)
    ensures SumOf(Repriced(c, lines, p), f) == SumOf(lines, f)
  {
    RepricedSameButPrices(c, lines, p);
    SumIgnoresPrices(lines, Repriced(c, lines, p), f);
  }

  /** An add grows exactly the units of its own variant and design. */
  lemma AddedUnits(c: Catalogue, b: Basket, v: string, quantity: nat, d: DesignRequest, stock: map<string, int>, u: string, hash: string)
    requires Complete(c) && Added(c, b, v, quantity, d, stock).error.None?
    ensures var lines' := Added(c, b, v, quantity, d, stock).basket.lines;
            && SumOf(lines', OfVariant(u)) == SumOf(b.lines, OfVariant(u)) + (if u == v then quantity else 0)
            && SumOf(lines', OfDesign(u, hash)) == SumOf(b.lines, OfDesign(u, hash)) + (if u == v && hash == HashOf(d) then quantity else 0)
  {
    var b', p := AddedLine(c, b, v, quantity, d, stock).value, c.variants[v].product;
    AddedLineUnits(c, b, v, quantity, d, stock, OfVariant(u), if u == v then quantity else 0);
    AddedLineUnits(c, b, v, quantity, d, stock, OfDesign(u, hash), if u == v && hash == HashOf(d) then quantity else 0);
    RepricedUnits(c, b'.lines, p, OfVariant(u));
    RepricedUnits(c, b'.lines, p, OfDesign(u, hash));
  }

  /** The line l is still there, but for its price. */
  ghost predicate Kept(b: Basket, l: CartLine) {
    var found := FindLine(b.lines, l.id);
    found.Some? && b.lines[found.value] == l.(unitPrice := b.lines[found.value].unitPrice)
  }

  lemma UniqueId(c: Catalogue, b: Basket, i: nat)
    requires Filed(c, b) && i < |b.lines|
    ensures FindLine(b.lines, b.lines[i].id) == Some(i)
  {
    forall k | 0 <= k < |b.lines| && k != i ensures b.lines[k].id != b.lines[i].id {
      assert if k < i then Apart(c, b.lines[k], b.lines[i]) else Apart(c, b.lines[i], b.lines[k]);
    }
  }

  /** An add leaves every other line where it was. */
  lemma AddedKeeps(c: Catalogue, b: Basket, v: string, quantity: nat, d: DesignRequest, stock: map<string, int>, l: CartLine)
    requires Sound(c, b) && Kept(b, l)
    ensures var b' := Added(c, b, v, quantity, d, stock).basket;
            var found := FindLine(b'.lines, l.id);
            && found.Some? && b'.lines[found.value].product == l.product
            && (!Same(l, v, HashOf(d)) ==> Kept(b', l))
  {
    var b', i := Added(c, b, v, quantity, d, stock).basket, FindLine(b.lines, l.id).value;
    AddedSound(c, b, v, quantity, d, stock);
    if Added(c, b, v, quantity, d, stock).error.None? {
      var b1 := AddedLine(c, b, v, quantity, d, stock).value;
      RepricedSameButPrices(c, b1.lines, c.variants[v].product);
      assert b'.lines[i] == b1.lines[i].(unitPrice := b'.lines[i].unitPrice);
      UniqueId(c, b', i);
    }
  }

  /** Enough stock for a design's units together with those already in the cart. */
  predicate Fits(b: Basket, v: string, design: DesignRequest, count: nat, stock: map<string, int>) {
    v in stock && SumOf(b.lines, OfDesign(v, HashOf(design))) + count <= stock[v]
  }

  /** Adding more of a variant the cart already holds is refused for stock alone. */
  lemma AddedSucceedsIff(c: Catalogue, b: Basket, v: string, quantity: nat, d: DesignRequest, stock: map<string, int>, l: CartLine)
    requires Sound(c, b) && Kept(b, l) && l.variant == v && 1 <= quantity && !d.Refused?
    ensures Added(c, b, v, quantity, d, stock).error.None? <==> Fits(b, v, d, quantity, stock)
    ensures Added(c, b, v, quantity, d, stock).error.Some? ==> Added(c, b, v, quantity, d, stock).basket == b
  {
    var i := FindLine(b.lines, l.id).value;
    assert Catalogued(c, b.lines[i]);
    FiledDesignUnits(c, b, v, HashOf(d));
    forall j | 0 <= j < |b.lines| ensures c.products[b.lines[j].product].brand == c.products[b.lines[i].product].brand {
      if j < i { assert Apart(c, b.lines[j], b.lines[i]); }
      if i < j { assert Apart(c, b.lines[i], b.lines[j]); }
    }
  }

  /** Taking n units off a line takes them off its variant and nothing else. */
  lemma TakenOffUnits(c: Catalogue, b: Basket, l: CartLine, n: nat, u: string)
    requires Kept(b, l) && n <= l.quantity
    ensures SumOf(TakenOff(c, b, l, n).lines, OfVariant(u)) == SumOf(b.lines, OfVariant(u)) - (if u == l.variant then n else 0)
  {
    var i := FindLine(b.lines, l.id).value;
    var lines := if l.quantity > n then b.lines[i := b.lines[i].(quantity := l.quantity - n)] else Without(b.lines, i);
    if l.quantity > n {
      SumOfUpdate(b.lines, i, b.lines[i].(quantity := l.quantity - n), OfVariant(u));
    } else {
      SumOfWithout(b.lines, i, OfVariant(u));
    }
    RepricedSameButPrices(c, lines, l.product);
    SumIgnoresPrices(lines, Repriced(c, lines, l.product), OfVariant(u));
  }

  // ── Groups of designs ──────────────────────────────────────────────────

  function CountOf(groups: seq<Group>): nat {
    if groups == [] then 0 else CountOf(groups[..|groups| - 1]) + groups[|groups| - 1].count
  }

  predicate Stitched(d: DesignRequest) {
    d.Resolved? && d.hash != ""
  }

  ghost predicate GroupsOk(groups: seq<Group>) {
    && (forall i :: 0 <= i < |groups| ==> 1 <= groups[i].count && Stitched(groups[i].design))
    && (forall i, j :: 0 <= i < j < |groups| ==> HashOf(groups[i].design) != HashOf(groups[j].design))
  }

  lemma {:induction false} CountOfUpdate(groups: seq<Group>, i: nat, g: Group)
    requires i < |groups|
    ensures CountOf(groups[i := g]) == CountOf(groups) - groups[i].count + g.count
  {
    var n := |groups| - 1;
    if i < n {
      assert groups[i := g][..n] == groups[..n][i := g];
      CountOfUpdate(groups[..n], i, g);
    } else {
      assert groups[i := g][..n] == groups[..n];
    }
  }

  lemma WithUnitOk(groups: seq<Group>, d: DesignRequest)
    requires GroupsOk(groups) && Stitched(d)
    ensures GroupsOk(WithUnit(groups, d)) && CountOf(WithUnit(groups, d)) == CountOf(groups) + 1
  {
    var found := FindGroup(groups, HashOf(d));
    if found.Some? {
      CountOfUpdate(groups, found.value, groups[found.value].(count := groups[found.value].count + 1));
    } else {
      assert (groups + [Group(d, 1)])[..|groups|] == groups;
    }
  }

  lemma {:induction false} GroupedToOk(units: seq<DesignRequest>, n: nat)
    requires n <= |units| && forall i :: 0 <= i < |units| ==> Stitched(units[i])
    ensures GroupsOk(GroupedTo(units, n)) && CountOf(GroupedTo(units, n)) == n
  {
    if n > 0 {
      GroupedToOk(units, n - 1);
      WithUnitOk(GroupedTo(units, n - 1), units[n - 1]);
    }
  }

  /** Every unit lands in exactly one group, and the groups' designs differ. */
  lemma GroupedOk(units: seq<DesignRequest>)
    requires forall i :: 0 <= i < |units| ==> Stitched(units[i])
    ensures GroupsOk(Grouped(units)) && CountOf(Grouped(units)) == |units|
  {
    GroupedToOk(units, |units|);
  }

  ghost predicate AllFit(b: Basket, v: string, groups: seq<Group>, stock: map<string, int>) {
    forall i :: 0 <= i < |groups| ==> Fits(b, v, groups[i].design, groups[i].count, stock)
  }

  lemma {:induction false} AddedGroupsSound(c: Catalogue, b: Basket, v: string, groups: seq<Group>, stock: map<string, int>, l: CartLine)
    requires Sound(c, b) && Kept(b, l) && l.hash == "" && GroupsOk(groups)
    ensures Sound(c, AddedGroups(c, b, v, groups, stock).basket) && Kept(AddedGroups(c, b, v, groups, stock).basket, l)
  {
    if groups != [] {
      var front, g := groups[..|groups| - 1], groups[|groups| - 1];
      AddedGroupsSound(c, b, v, front, stock, l);
      var before := AddedGroups(c, b, v, front, stock);
      if before.error.None? {
        AddedKeeps(c, before.basket, v, g.count, g.design, stock, l);
        AddedSound(c, before.basket, v, g.count, g.design, stock);
      }
    }
  }

  /** The groups' units all arrive; a design outside the groups is not touched. */
  lemma {:induction false} AddedGroupsUnits(c: Catalogue, b: Basket, v: string, groups: seq<Group>, stock: map<string, int>, u: string, hash: string)
    requires Complete(c) && AddedGroups(c, b, v, groups, stock).error.None?
    ensures var lines' := AddedGroups(c, b, v, groups, stock).basket.lines;
            && SumOf(lines', OfVariant(u)) == SumOf(b.lines, OfVariant(u)) + (if u == v then CountOf(groups) else 0)
            && ((forall i :: 0 <= i < |groups| ==> HashOf(groups[i].design) != hash) ==>
                  SumOf(lines', OfDesign(v, hash)) == SumOf(b.lines, OfDesign(v, hash)))
  {
    if groups != [] {
      var front, g := groups[..|groups| - 1], groups[|groups| - 1];
      var before := AddedGroups(c, b, v, front, stock);
      AddedGroupsUnits(c, b, v, front, stock, u, hash);
      AddedUnits(c, before.basket, v, g.count, g.design, stock, u, hash);
      AddedUnits(c, before.basket, v, g.count, g.design, stock, v, hash);
    }
  }

  /** Groups go in one after the other exactly when each fits the cart as it was at the start. */
  lemma {:induction false} AddedGroupsIff(c: Catalogue, b: Basket, v: string, groups: seq<Group>, stock: map<string, int>, l: CartLine)
    requires Sound(c, b) && Kept(b, l) && l.variant == v && l.hash == "" && GroupsOk(groups)
    ensures AddedGroups(c, b, v, groups, stock).error.None? <==> AllFit(b, v, groups, stock)
  {
    if groups != [] {
      var front, g := groups[..|groups| - 1], groups[|groups| - 1];
      AddedGroupsIff(c, b, v, front, stock, l);
      assert AllFit(b, v, groups, stock) <==> AllFit(b, v, front, stock) && Fits(b, v, g.design, g.count, stock) by {
        assert forall i :: 0 <= i < |front| ==> front[i] == groups[i];
      }
      var before := AddedGroups(c, b, v, front, stock);
      if before.error.None? {
        AddedGroupsSound(c, b, v, front, stock, l);
        AddedGroupsUnits(c, b, v, front, stock, v, HashOf(g.design));
        AddedSucceedsIff(c, before.basket, v, g.count, g.design, stock, l);
      }
    }
  }

  // ── Embroidery moves units, it does not make them ──────────────────────

  /** The plain line a personalise call may act on, and the designs for its units. */
  ghost predicate Personalisable(c: Catalogue, b: Basket, l: CartLine, units: seq<DesignRequest>) {
    && Sound(c, b)
    && FindLine(b.lines, l.id).Some? && b.lines[FindLine(b.lines, l.id).value] == l
    && l.hash == "" && |units| <= l.quantity
    && forall i :: 0 <= i < |units| ==> Stitched(units[i])
  }

  /** Personalising succeeds exactly when every group of designs fits in stock, and then conserves every variant's units. */
  lemma PersonalisedConserves(c: Catalogue, b: Basket, l: CartLine, units: seq<DesignRequest>, stock: map<string, int>, u: string)
    requires Personalisable(c, b, l, units)
    ensures var r := Personalised(c, b, l.id, units, stock);
            && (r.error.None? <==> AllFit(b, l.variant, Grouped(units), stock))
            && (r.error.None? ==> SumOf(r.basket.lines, OfVariant(u)) == SumOf(b.lines, OfVariant(u)))
  {
    var groups := Grouped(units);
    GroupedOk(units);
    assert !AnyRefused(units) by { assert forall i :: 0 <= i < |units| ==> Stitched(units[i]); }
    AddedGroupsIff(c, b, l.variant, groups, stock, l);
    AddedGroupsSound(c, b, l.variant, groups, stock, l);
    if AddedGroups(c, b, l.variant, groups, stock).error.None? {
      AddedGroupsUnits(c, b, l.variant, groups, stock, u, "");
      TakenOffUnits(c, AddedGroups(c, b, l.variant, groups, stock).basket, l, |units|, u);
    }
  }

  /** The groups before the refused one are added, and nothing after them. */
  lemma StoppedGroups(c: Catalogue, b: Basket, l: CartLine, groups: seq<Group>, stock: map<string, int>, k: nat)
    requires Sound(c, b) && Kept(b, l) && l.hash == "" && GroupsOk(groups) && k < |groups|
    requires AllFit(b, l.variant, groups[..k], stock)
    requires !Fits(b, l.variant, groups[k].design, groups[k].count, stock)
    ensures var r, before := AddedGroups(c, b, l.variant, groups, stock), AddedGroups(c, b, l.variant, groups[..k], stock);
            r.error.Some? && before.error.None? && r.basket == before.basket && Sound(c, r.basket)
  {
    var v, front, g := l.variant, groups[..k], groups[k];
    var before := AddedGroups(c, b, v, front, stock);
    assert groups[..k + 1][..k] == front;
    AddedGroupsIff(c, b, v, front, stock, l);
    AddedGroupsSound(c, b, v, front, stock, l);
    AddedGroupsUnits(c, b, v, front, stock, v, HashOf(g.design));
    AddedSucceedsIff(c, before.basket, v, g.count, g.design, stock, l);
    AddedGroupsStop(c, b, v, groups, k + 1, stock);
  }

  lemma FoundKept(b: Basket, l: CartLine)
    requires FindLine(b.lines, l.id).Some? && b.lines[FindLine(b.lines, l.id).value] == l
    ensures Kept(b, l)
  {
    assert l == l.(unitPrice := l.unitPrice);
  }

  /**
   * A refusal at group k keeps the groups before it: the cart is left as it
   * was exactly when the first group is the one refused, and otherwise holds
   * the earlier groups' units twice over, once plain and once embroidered.
   */
  lemma RefusedPersonalisation(c: Catalogue, b: Basket, l: CartLine, units: seq<DesignRequest>, stock: map<string, int>, k: nat)
    requires Personalisable(c, b, l, units) && k < |Grouped(units)|
    requires AllFit(b, l.variant, Grouped(units)[..k], stock)
    requires !Fits(b, l.variant, Grouped(units)[k].design, Grouped(units)[k].count, stock)
    ensures var r := Personalised(c, b, l.id, units, stock);
            && r.error.Some?
            && SumOf(r.basket.lines, OfVariant(l.variant)) == SumOf(b.lines, OfVariant(l.variant)) + CountOf(Grouped(units)[..k])
            && (r.basket == b <==> k == 0)
            && AllRight(c, r.basket.lines)
  {
    var groups := Grouped(units);
    GroupedOk(units);
    assert !AnyRefused(units) by { assert forall i :: 0 <= i < |units| ==> Stitched(units[i]); }
    FoundKept(b, l);
    StoppedGroups(c, b, l, groups, stock, k);
    AddedGroupsUnits(c, b, l.variant, groups[..k], stock, l.variant, "");
    if k > 0 { assert groups[..k][k - 1].count >= 1; }
  }

  /** Moving a line onto another design either changes nothing or conserves every variant's units. */
  lemma MovedConserves(c: Catalogue, b: Basket, l: CartLine, d: DesignRequest, stock: map<string, int>, u: string)
    requires Sound(c, b) && Kept(b, l) && 1 <= l.quantity && !d.Refused? && HashOf(d) != l.hash
    ensures var r := Moved(c, b, l, d, stock);
            && Sound(c, r.basket)
            && (r.error.None? <==> Fits(b, l.variant, d, l.quantity, stock))
            && SumOf(r.basket.lines, OfVariant(u)) == SumOf(b.lines, OfVariant(u))
            && (r.error.Some? ==> r.basket == b)
  {
    var added := Added(c, b, l.variant, l.quantity, d, stock);
    AddedSound(c, b, l.variant, l.quantity, d, stock);
    AddedSucceedsIff(c, b, l.variant, l.quantity, d, stock, l);
    AddedKeeps(c, b, l.variant, l.quantity, d, stock, l);
    if added.error.None? {
      AddedUnits(c, b, l.variant, l.quantity, d, stock, u, "");
      TakenOffSound(c, added.basket, l, l.quantity);
      TakenOffUnits(c, added.basket, l, l.quantity, u);
    }
  }

  lemma FoundLine(c: Catalogue, b: Basket, id: nat)
    requires Sound(c, b) && FindLine(b.lines, id).Some?
    ensures var l := b.lines[FindLine(b.lines, id).value]; l.id == id && Kept(b, l) && 1 <= l.quantity
  {
    var l := b.lines[FindLine(b.lines, id).value];
    assert Catalogued(c, l) && l.(unitPrice := l.unitPrice) == l;
  }

  /** Changing the embroidery of a line never changes how many units of anything the cart holds. */
  lemma RedesignedConserves(c: Catalogue, b: Basket, id: nat, d: DesignRequest, stock: map<string, int>, u: string)
    requires Sound(c, b)
    ensures var r := Redesigned(c, b, id, d, stock);
            && Sound(c, r.basket) && SumOf(r.basket.lines, OfVariant(u)) == SumOf(b.lines, OfVariant(u))
            && (r.error.Some? ==> r.basket == b)
  {
    var found := FindLine(b.lines, id);
    if found.Some? {
      FoundLine(c, b, id);
      var l := b.lines[found.value];
      if l.hash != "" && !d.Refused? && HashOf(d) != l.hash { MovedConserves(c, b, l, d, stock, u); }
    }
  }

  /** Nor does taking the embroidery off. */
  lemma DesignRemovedConserves(c: Catalogue, b: Basket, id: nat, stock: map<string, int>, u: string)
    requires Sound(c, b)
    ensures var r := DesignRemoved(c, b, id, stock);
            && Sound(c, r.basket) && SumOf(r.basket.lines, OfVariant(u)) == SumOf(b.lines, OfVariant(u))
            && (r.error.Some? ==> r.basket == b)
  {
    var found := FindLine(b.lines, id);
    if found.Some? {
      FoundLine(c, b, id);
      var l := b.lines[found.value];
      if l.hash != "" { MovedConserves(c, b, l, Plain, stock, u); }
    }
  }

  // ── Whole sessions ─────────────────────────────────────────────────────

  /** One call, with the stock it happens to see. */
  datatype CartStep =
    | AddStep(variant: string, quantity: nat, design: DesignRequest, stock: map<string, int>)
    | UpdateStep(id: nat, newQuantity: int, stock: map<string, int>)
    | RemoveStep(id: nat)
    | PersonaliseStep(id: nat, units: seq<DesignRequest>, stock: map<string, int>)
    | RedesignStep(id: nat, design: DesignRequest, stock: map<string, int>)
    | RemoveDesignStep(id: nat, stock: map<string, int>)

  function NextBasket(c: Catalogue, b: Basket, step: CartStep): Basket
    requires Complete(c)
  {
    match step
    case AddStep(v, quantity, d, stock) => Added(c, b, v, quantity, d, stock).basket
    case UpdateStep(id, quantity, stock) => Updated(c, b, id, quantity, stock).basket
    case RemoveStep(id) => Removed(c, b, id).basket
    case PersonaliseStep(id, units, stock) => Personalised(c, b, id, units, stock).basket
    case RedesignStep(id, d, stock) => Redesigned(c, b, id, d, stock).basket
    case RemoveDesignStep(id, stock) => DesignRemoved(c, b, id, stock).basket
  }

  function Session(c: Catalogue, steps: seq<CartStep>): Basket
    requires Complete(c)
  {
    if steps == [] then Basket([], 0) else NextBasket(c, Session(c, steps[..|steps| - 1]), steps[|steps| - 1])
  }

  /** Adds keep the basket sound and every line under its id. */
  lemma {:induction false} GroupsKeepProduct(c: Catalogue, b: Basket, v: string, groups: seq<Group>, stock: map<string, int>, l: CartLine)
    requires Sound(c, b) && FindLine(b.lines, l.id).Some? && b.lines[FindLine(b.lines, l.id).value].product == l.product
    ensures var b' := AddedGroups(c, b, v, groups, stock).basket;
            var found := FindLine(b'.lines, l.id);
            Sound(c, b') && found.Some? && b'.lines[found.value].product == l.product
  {
    if groups != [] {
      var front, g := groups[..|groups| - 1], groups[|groups| - 1];
      GroupsKeepProduct(c, b, v, front, stock, l);
      var before := AddedGroups(c, b, v, front, stock);
      if before.error.None? {
        FoundLine(c, before.basket, l.id);
        AddedSound(c, before.basket, v, g.count, g.design, stock);
        AddedKeeps(c, before.basket, v, g.count, g.design, stock, before.basket.lines[FindLine(before.basket.lines, l.id).value]);
      }
    }
  }

  lemma PersonalisedSound(c: Catalogue, b: Basket, id: nat, units: seq<DesignRequest>, stock: map<string, int>)
    requires Sound(c, b)
    ensures Sound(c, Personalised(c, b, id, units, stock).basket)
  {
    var found := FindLine(b.lines, id);
    if found.Some? {
      var l := b.lines[found.value];
      if l.hash == "" && |units| <= l.quantity && !AnyRefused(units) {
        GroupsKeepProduct(c, b, l.variant, Grouped(units), stock, l);
        TakenOffSound(c, AddedGroups(c, b, l.variant, Grouped(units), stock).basket, l, |units|);
      }
    }
  }

  lemma NextBasketSound(c: Catalogue, b: Basket, step: CartStep)
    requires Sound(c, b)
    ensures Sound(c, NextBasket(c, b, step))
  {
    match step
    case AddStep(v, quantity, d, stock) => AddedSound(c, b, v, quantity, d, stock);
    case UpdateStep(id, quantity, stock) => UpdatedSound(c, b, id, quantity, stock);
    case RemoveStep(id) => RemovedSound(c, b, id);
    case PersonaliseStep(id, units, stock) => PersonalisedSound(c, b, id, units, stock);
    case RedesignStep(id, d, stock) => RedesignedConserves(c, b, id, d, stock, "");
    case RemoveDesignStep(id, stock) => DesignRemovedConserves(c, b, id, stock, "");
  }

  /** After any session, with any designs and any refusals on the way, lines are unique and prices are the ones checkout recomputes. */
  lemma {:induction false} SessionSound(c: Catalogue, steps: seq<CartStep>)
    requires Complete(c)
    ensures Sound(c, Session(c, steps))
  {
    if steps != [] {
      SessionSound(c, steps[..|steps| - 1]);
      NextBasketSound(c, Session(c, steps[..|steps| - 1]), steps[|steps| - 1]);
    }
  }

  /** So checkout never finds a changed price on a cart no one else has touched. */
  method CheckoutAccepts(c: Catalogue, steps: seq<CartStep>) returns (error: Option<CartError>)
    requires Complete(c)
    ensures error.None?
  {
    SessionSound(c, steps);
    error := VerifyPrices(c, Session(c, steps).lines);
  }

  // ── A refused personalisation ──────────────────────────────────────────

  const ONE_CAP := Catalogue(map["v" := VariantInfo("p", Some(2000), 0)], map["p" := ProductInfo(None, false, [], true, None)])

  const THREE_PLAIN := CartLine(0, "v", "p", 3, 2000, 0, "")

  const ANCHOR := Resolved("anchor", 500)

  const CROWN := Resolved("crown", 500)

  /** A unit either meets its design's group or starts one; which one follows from the groups' hashes. */
  lemma NewGroup(groups: seq<Group>, d: DesignRequest)
    requires forall i :: 0 <= i < |groups| ==> HashOf(groups[i].design) != HashOf(d)
    ensures WithUnit(groups, d) == groups + [Group(d, 1)]
  {
  }

  lemma KnownGroup(groups: seq<Group>, d: DesignRequest, k: nat)
    requires k < |groups| && HashOf(groups[k].design) == HashOf(d)
    requires forall i :: 0 <= i < |groups| && i != k ==> HashOf(groups[i].design) != HashOf(d)
    ensures WithUnit(groups, d) == groups[k := groups[k].(count := groups[k].count + 1)]
  {
    assert FindGroup(groups, HashOf(d)) == Some(k);
  }

  lemma CrownGroups()
    ensures Grouped([ANCHOR, CROWN, CROWN]) == [Group(ANCHOR, 1), Group(CROWN, 2)]
  {
    var units := [ANCHOR, CROWN, CROWN];
    GroupedNext(units, 0);
    GroupedNext(units, 1);
    GroupedNext(units, 2);
    NewGroup([], ANCHOR);
    assert GroupedTo(units, 1) == [Group(ANCHOR, 1)];
    NewGroup([Group(ANCHOR, 1)], CROWN);
    assert GroupedTo(units, 2) == [Group(ANCHOR, 1), Group(CROWN, 1)];
    KnownGroup([Group(ANCHOR, 1), Group(CROWN, 1)], CROWN, 1);
  }

  lemma ThreePlainSound()
    ensures Personalisable(ONE_CAP, Basket([THREE_PLAIN], 1), THREE_PLAIN, [ANCHOR, CROWN, CROWN])
    ensures forall hash: string :: hash != "" ==> SumOf([THREE_PLAIN], OfDesign("v", hash)) == 0
  {
    var lines := [THREE_PLAIN];
    assert lines[..0] == [];
    assert SumOf(lines, OfProduct("p")) == 3;
    assert PriceRight(ONE_CAP, lines, THREE_PLAIN);
  }

  /** Three caps, one anchor and two crowns, stock for one: the call is refused and the cart holds four caps. */
  lemma FourthCap()
    ensures var r := Personalised(ONE_CAP, Basket([THREE_PLAIN], 1), 0, [ANCHOR, CROWN, CROWN], map["v" := 1]);
            r.error.Some? && SumOf(r.basket.lines, OfVariant("v")) == 4
  {
    var b, groups, stock := Basket([THREE_PLAIN], 1), [Group(ANCHOR, 1), Group(CROWN, 2)], map["v" := 1];
    ThreePlainSound();
    CrownGroups();
    assert groups[..1] == [Group(ANCHOR, 1)] && groups[..1][..0] == [];
    assert Fits(b, "v", ANCHOR, 1, stock) && !Fits(b, "v", CROWN, 2, stock);
    RefusedPersonalisation(ONE_CAP, b, THREE_PLAIN, [ANCHOR, CROWN, CROWN], stock, 1);
    assert CountOf(groups[..1]) == 1;
    assert [THREE_PLAIN][..0] == [];
  }
}
