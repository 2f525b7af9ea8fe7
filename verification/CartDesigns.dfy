/**
 * Where the units of a line end up when their embroidery changes: design by
 * design, and what each call is refused for.
 */
module CartDesigns {
  import opened Common
  import opened Cart
  import opened CartInvariants
  import opened CartPrices

  function UnitsOf(lines: seq<CartLine>, v: string, hash: string): nat {
    SumOf(lines, OfDesign(v, hash))
  }

  /** Taking n units off a line takes them off its own design and no other. */
  lemma TakenOffDesign(c: Catalogue, b: Basket, l: CartLine, n: nat, hash: string)
    requires Kept(b, l) && n <= l.quantity
    ensures UnitsOf(TakenOff(c, b, l, n).lines, l.variant, hash) == UnitsOf(b.lines, l.variant, hash) - (if hash == l.hash then n else 0)
  {
    var i, f := FindLine(b.lines, l.id).value, OfDesign(l.variant, hash);
    var lines := if l.quantity > n then b.lines[i := b.lines[i].(quantity := l.quantity - n)] else Without(b.lines, i);
    if l.quantity > n {
      SumOfUpdate(b.lines, i, b.lines[i].(quantity := l.quantity - n), f);
    } else {
      SumOfWithout(b.lines, i, f);
    }
    RepricedUnits(c, lines, l.product, f);
  }

  // ── A line onto another design ─────────────────────────────────────────

  /** Every unit of the line goes onto the new design: all of them, and no others. */
  lemma MovedDesign(c: Catalogue, b: Basket, l: CartLine, d: DesignRequest, stock: map<string, int>, to: string, hash: string)
    requires Sound(c, b) && Kept(b, l) && 1 <= l.quantity && !d.Refused? && KeyOf(d, to) && to != l.hash
    ensures var r := Moved(c, b, l, d, stock);
            && (r.error.None? <==> l.variant in stock && UnitsOf(b.lines, l.variant, to) + l.quantity <= stock[l.variant])
            && (r.error.Some? ==> r.basket == b)
            && (r.error.None? ==>
                  UnitsOf(r.basket.lines, l.variant, hash) ==
                  UnitsOf(b.lines, l.variant, hash) + (if hash == to then l.quantity else 0) - (if hash == l.hash then l.quantity else 0))
  {
    var added := Added(c, b, l.variant, l.quantity, d, stock);
    AddedSucceedsIff(c, b, l.variant, l.quantity, d, stock, l);
    if added.error.None? {
      AddedKeeps(c, b, l.variant, l.quantity, d, stock, l);
      AddedUnits(c, b, l.variant, l.quantity, d, stock, l.variant, hash);
      TakenOffDesign(c, added.basket, l, l.quantity, hash);
    }
  }

  /**
   * Replacing a design is refused for an unknown line, a plain line, a refused
   * design, and missing stock, and then changes nothing; the same design again
   * changes nothing either; otherwise every unit of the line carries the new one.
   */
  lemma RedesignedLeaves(c: Catalogue, b: Basket, id: nat, d: DesignRequest, stock: map<string, int>, i: nat, to: string, hash: string)
    requires Sound(c, b) && KeyOf(d, to)
    ensures (forall j :: 0 <= j < |b.lines| ==> b.lines[j].id != id) ==> Redesigned(c, b, id, d, stock) == Outcome(b, Some(ItemNotFound))
    ensures i < |b.lines| && b.lines[i].id == id ==>
              var r, l := Redesigned(c, b, id, d, stock), b.lines[i];
              if l.hash == "" then r == Outcome(b, Some(NotPersonalised))
              else if d.Refused? then r == Outcome(b, Some(DesignRefused))
              else if to == l.hash then r == Outcome(b, None)
              else
                && (r.error.None? <==> l.variant in stock && UnitsOf(b.lines, l.variant, to) + l.quantity <= stock[l.variant])
                && (r.error.Some? ==> r.basket == b)
                && (r.error.None? ==>
                      UnitsOf(r.basket.lines, l.variant, hash) ==
                      UnitsOf(b.lines, l.variant, hash) + (if hash == to then l.quantity else 0) - (if hash == l.hash then l.quantity else 0))
  {
    if i < |b.lines| && b.lines[i].id == id {
      UniqueId(c, b, i);
      FoundLine(c, b, id);
      if b.lines[i].hash != "" && !d.Refused? && to != b.lines[i].hash { MovedDesign(c, b, b.lines[i], d, stock, to, hash); }
    }
  }

  /** Taking the embroidery off puts every unit of the line back among the plain ones. */
  lemma DesignRemovedLeaves(c: Catalogue, b: Basket, id: nat, stock: map<string, int>, i: nat, hash: string)
    requires Sound(c, b)
    ensures (forall j :: 0 <= j < |b.lines| ==> b.lines[j].id != id) ==> DesignRemoved(c, b, id, stock) == Outcome(b, Some(ItemNotFound))
    ensures i < |b.lines| && b.lines[i].id == id ==>
              var r, l := DesignRemoved(c, b, id, stock), b.lines[i];
              if l.hash == "" then r == Outcome(b, None)
              else
                && (r.error.None? <==> l.variant in stock && UnitsOf(b.lines, l.variant, "") + l.quantity <= stock[l.variant])
                && (r.error.Some? ==> r.basket == b)
                && (r.error.None? ==>
                      UnitsOf(r.basket.lines, l.variant, hash) ==
                      UnitsOf(b.lines, l.variant, hash) + (if hash == "" then l.quantity else 0) - (if hash == l.hash then l.quantity else 0))
  {
    if i < |b.lines| && b.lines[i].id == id {
      UniqueId(c, b, i);
      FoundLine(c, b, id);
      if b.lines[i].hash != "" { MovedDesign(c, b, b.lines[i], Plain, stock, "", hash); }
    }
  }

  // ── Some units of a plain line ─────────────────────────────────────────

  /** How many of the first n units are to carry a design. */
  function Wanting(units: seq<DesignRequest>, n: nat, hash: string): nat
    requires n <= |units|
  {
    if n == 0 then 0 else Wanting(units, n - 1, hash) + if HashOf(units[n - 1]) == hash then 1 else 0
  }

  function CountFor(groups: seq<Group>, hash: string): nat {
    var found := FindGroup(groups, hash);
    if found.Some? then groups[found.value].count else 0
  }

  lemma FindGroupOnly(groups: seq<Group>, hash: string, k: nat)
    requires GroupsOk(groups) && k < |groups| && HashOf(groups[k].design) == hash
    ensures FindGroup(groups, hash) == Some(k)
  {
  }

  lemma WithUnitCount(groups: seq<Group>, d: DesignRequest, hash: string)
    requires GroupsOk(groups) && Stitched(d)
    ensures CountFor(WithUnit(groups, d), hash) == CountFor(groups, hash) + if HashOf(d) == hash then 1 else 0
  {
    var groups', found, known := WithUnit(groups, d), FindGroup(groups, hash), FindGroup(groups, HashOf(d));
    WithUnitOk(groups, d);
    if found.Some? { FindGroupOnly(groups', hash, found.value); }
    if HashOf(d) == hash && known.None? { FindGroupOnly(groups', hash, |groups|); }
  }

  ghost predicate AllStitched(units: seq<DesignRequest>) {
    forall i :: 0 <= i < |units| ==> Stitched(units[i])
  }

  /** The groups of the first n units, with the counts they must have. */
  ghost predicate Counted(groups: seq<Group>, units: seq<DesignRequest>, n: nat, hash: string)
    requires n <= |units|
  {
    GroupsOk(groups) && CountFor(groups, hash) == Wanting(units, n, hash)
  }

  lemma CountedNext(groups: seq<Group>, units: seq<DesignRequest>, n: nat, hash: string)
    requires n < |units| && Stitched(units[n]) && Counted(groups, units, n, hash)
    ensures Counted(WithUnit(groups, units[n]), units, n + 1, hash)
  {
    WithUnitOk(groups, units[n]);
    WithUnitCount(groups, units[n], hash);
  }

  lemma NoneCounted(units: seq<DesignRequest>, hash: string)
    ensures Counted([], units, 0, hash)
  {
  }

  lemma GroupsCounted(units: seq<DesignRequest>, hash: string)
    requires AllStitched(units)
    ensures Counted(Grouped(units), units, |units|, hash)
  {
    var groups := [];
    NoneCounted(units, hash);
    for n := 0 to |units|
      invariant groups == GroupedTo(units, n) && Counted(groups, units, n, hash)
    {
      assert Stitched(units[n]);
      CountedNext(groups, units, n, hash);
      GroupedNext(units, n);
      groups := WithUnit(groups, units[n]);
    }
  }

  lemma CountForMore(front: seq<Group>, g: Group, hash: string)
    requires GroupsOk(front + [g])
    ensures GroupsOk(front) && CountFor(front + [g], hash) == CountFor(front, hash) + if HashOf(g.design) == hash then g.count else 0
  {
    var groups := front + [g];
    assert forall i :: 0 <= i < |front| ==> groups[i] == front[i];
    if HashOf(g.design) == hash {
      FindGroupOnly(groups, hash, |front|);
      assert forall i :: 0 <= i < |front| ==> HashOf(groups[i].design) != HashOf(groups[|front|].design);
    } else if FindGroup(front, hash).Some? {
      FindGroupOnly(groups, hash, FindGroup(front, hash).value);
    }
  }

  lemma {:induction false} AddedGroupsDesign(c: Catalogue, b: Basket, v: string, groups: seq<Group>, stock: map<string, int>, hash: string)
    requires Complete(c) && GroupsOk(groups) && AddedGroups(c, b, v, groups, stock).error.None?
    ensures UnitsOf(AddedGroups(c, b, v, groups, stock).basket.lines, v, hash) == UnitsOf(b.lines, v, hash) + CountFor(groups, hash)
  {
    if groups != [] {
      var front, g := groups[..|groups| - 1], groups[|groups| - 1];
      var before := AddedGroups(c, b, v, front, stock);
      assert groups == front + [g];
      CountForMore(front, g, hash);
      AddedGroupsDesign(c, b, v, front, stock, hash);
      AddedUnits(c, before.basket, v, g.count, g.design, stock, v, hash);
    }
  }

  /**
   * Personalising is refused for an unknown line, one that is embroidered
   * already, more designs than units, and a refused design, with nothing
   * changed. Done, each design has as many more units as asked for it, and the
   * plain ones are fewer by their number.
   */
  lemma PersonalisedLeaves(c: Catalogue, b: Basket, id: nat, units: seq<DesignRequest>, stock: map<string, int>, i: nat, hash: string)
    requires Sound(c, b)
    ensures (forall j :: 0 <= j < |b.lines| ==> b.lines[j].id != id) ==>
              Personalised(c, b, id, units, stock) == Outcome(b, Some(ItemNotFound))
    ensures i < |b.lines| && b.lines[i].id == id ==>
              var r, l := Personalised(c, b, id, units, stock), b.lines[i];
              if l.hash != "" then r == Outcome(b, Some(AlreadyPersonalised))
              else if |units| > l.quantity then r == Outcome(b, Some(LineQuantityChanged))
              else if exists k :: 0 <= k < |units| && units[k].Refused? then r == Outcome(b, Some(DesignRefused))
              else (forall k :: 0 <= k < |units| ==> Stitched(units[k])) && r.error.None? ==>
                     UnitsOf(r.basket.lines, l.variant, hash) ==
                     UnitsOf(b.lines, l.variant, hash) + Wanting(units, |units|, hash) - (if hash == "" then |units| else 0)
  {
    if i < |b.lines| && b.lines[i].id == id {
      UniqueId(c, b, i);
      FoundLine(c, b, id);
      var r, l := Personalised(c, b, id, units, stock), b.lines[i];
      if l.hash == "" && |units| <= l.quantity && r.error.None? && forall k :: 0 <= k < |units| ==> Stitched(units[k]) {
        var groups := Grouped(units);
        GroupedOk(units);
        GroupsCounted(units, hash);
        AddedGroupsSound(c, b, l.variant, groups, stock, l);
        AddedGroupsDesign(c, b, l.variant, groups, stock, hash);
        TakenOffDesign(c, AddedGroups(c, b, l.variant, groups, stock).basket, l, |units|, hash);
      }
    }
  }
}
