/**
 * Whether a draft order still matches its cart: sameLines of
 * src/checkout/checkout.service.ts, which sorts two lists of signatures and
 * compares them position by position.
 */
module CartMatch {
  import opened Common
  import opened Inventory
  import opened Orders

  // ── Sorting ────────────────────────────────────────────────────────────

  ghost predicate Total<T(!new)>(le: (T, T) -> bool) {
    forall x, y :: le(x, y) || le(y, x)
  }

  ghost predicate Transitive<T(!new)>(le: (T, T) -> bool) {
    forall x, y, z :: le(x, y) && le(y, z) ==> le(x, z)
  }

  /** Elements the order does not tell apart are equal. */
  predicate Distinguished<T(==)>(s: seq<T>, le: (T, T) -> bool) {
    forall x, y :: x in s && y in s && le(x, y) && le(y, x) ==> x == y
  }

  predicate Ordered<T>(s: seq<T>, le: (T, T) -> bool) {
    forall i, j :: 0 <= i < j < |s| ==> le(s[i], s[j])
  }

  /** Behind everything it does not precede: equal elements keep their order. */
  function Inserted<T>(s: seq<T>, x: T, le: (T, T) -> bool): seq<T> {
    if s == [] then [x]
    else if le(s[|s| - 1], x) then s + [x]
    else Inserted(s[..|s| - 1], x, le) + [s[|s| - 1]]
  }

  function Sorted<T>(s: seq<T>, le: (T, T) -> bool): seq<T> {
    if s == [] then [] else Inserted(Sorted(s[..|s| - 1], le), s[|s| - 1], le)
  }

  lemma {:induction false} InsertedElements<T>(s: seq<T>, x: T, le: (T, T) -> bool)
    ensures multiset(Inserted(s, x, le)) == multiset(s) + multiset{x}
  {
    if s != [] {
      assert s == s[..|s| - 1] + [s[|s| - 1]];
      InsertedElements(s[..|s| - 1], x, le);
    }
  }

  lemma {:induction false} SortedElements<T>(s: seq<T>, le: (T, T) -> bool)
    ensures multiset(Sorted(s, le)) == multiset(s)
  {
    if s != [] {
      assert s == s[..|s| - 1] + [s[|s| - 1]];
      SortedElements(s[..|s| - 1], le);
      InsertedElements(Sorted(s[..|s| - 1], le), s[|s| - 1], le);
    }
  }

  lemma {:induction false} InsertedOrdered<T(!new)>(s: seq<T>, x: T, le: (T, T) -> bool)
    requires Total(le) && Transitive(le) && Ordered(s, le)
    ensures Ordered(Inserted(s, x, le), le)
  {
    if s != [] {
      var front, last := s[..|s| - 1], s[|s| - 1];
      if le(last, x) {
        forall i | 0 <= i < |s| ensures le(s[i], x) {
          assert i < |s| - 1 ==> le(s[i], last);
        }
      } else {
        var t := Inserted(front, x, le);
        InsertedOrdered(front, x, le);
        InsertedElements(front, x, le);
        forall i | 0 <= i < |t| ensures le(t[i], last) {
          assert t[i] in multiset(t);
          assert t[i] == x || t[i] in multiset(front);
          if t[i] != x {
            var k :| 0 <= k < |front| && front[k] == t[i];
            assert le(s[k], s[|s| - 1]);
          }
        }
      }
    }
  }

  lemma {:induction false} SortedOrdered<T(!new)>(s: seq<T>, le: (T, T) -> bool)
    requires Total(le) && Transitive(le)
    ensures Ordered(Sorted(s, le), le)
  {
    if s != [] {
      SortedOrdered(s[..|s| - 1], le);
      InsertedOrdered(Sorted(s[..|s| - 1], le), s[|s| - 1], le);
    }
  }

  lemma LastIsGreatest<T(!new)>(a: seq<T>, y: T, le: (T, T) -> bool)
    requires Total(le) && Ordered(a, le) && a != [] && y in multiset(a)
    ensures y in a && le(y, a[|a| - 1])
  {
    var k :| 0 <= k < |a| && a[k] == y;
  }

  lemma FrontElements<T>(a: seq<T>)
    requires a != []
    ensures multiset(a) == multiset(a[..|a| - 1]) + multiset{a[|a| - 1]}
  {
    assert a == a[..|a| - 1] + [a[|a| - 1]];
  }

  lemma Cancelled<T>(m: multiset<T>, n: multiset<T>, x: T)
    requires m + multiset{x} == n + multiset{x}
    ensures m == n
  {
    assert m == (m + multiset{x}) - multiset{x};
    assert n == (n + multiset{x}) - multiset{x};
  }

  lemma SameLast<T(!new)>(a: seq<T>, b: seq<T>, le: (T, T) -> bool)
    requires Total(le) && Ordered(a, le) && Ordered(b, le) && multiset(a) == multiset(b) && Distinguished(a, le)
    requires a != [] && b != []
    ensures a[|a| - 1] == b[|b| - 1]
  {
    var x, y := a[|a| - 1], b[|b| - 1];
    assert x in multiset(a) && y in multiset(b);
    LastIsGreatest(a, y, le);
    LastIsGreatest(b, x, le);
  }

  /** Two orderings of the same elements are the same list when the order tells the elements apart. */
  lemma {:induction false} OrderedUnique<T(!new)>(a: seq<T>, b: seq<T>, le: (T, T) -> bool)
    requires Total(le) && Ordered(a, le) && Ordered(b, le) && multiset(a) == multiset(b) && Distinguished(a, le)
    ensures a == b
    decreases |a|
  {
    assert |a| == |multiset(a)| == |multiset(b)| == |b|;
    if a != [] {
      var front, front' := a[..|a| - 1], b[..|b| - 1];
      SameLast(a, b, le);
      FrontElements(a);
      FrontElements(b);
      Cancelled(multiset(front), multiset(front'), a[|a| - 1]);
      assert Distinguished(front, le) by { assert forall x :: x in front ==> x in a; }
      OrderedUnique(front, front', le);
      assert a == front + [a[|a| - 1]] && b == front' + [b[|b| - 1]];
    }
  }

  /** Sorting decides equality as multisets. */
  lemma SortedEqualIff<T(!new)>(a: seq<T>, b: seq<T>, le: (T, T) -> bool)
    requires Total(le) && Transitive(le) && Distinguished(a, le)
    ensures Sorted(a, le) == Sorted(b, le) <==> multiset(a) == multiset(b)
  {
    SortedElements(a, le);
    SortedElements(b, le);
    if multiset(a) == multiset(b) {
      SortedOrdered(a, le);
      SortedOrdered(b, le);
      assert forall x :: x in Sorted(a, le) ==> x in multiset(a);
      OrderedUnique(Sorted(a, le), Sorted(b, le), le);
    }
  }

  // ── Strings by code unit ───────────────────────────────────────────────

  predicate AtMost(a: string, b: string) {
    a == [] || (b != [] && (a[0] < b[0] || (a[0] == b[0] && AtMost(a[1..], b[1..]))))
  }

  lemma {:induction false} AtMostTotal(a: string, b: string)
    ensures AtMost(a, b) || AtMost(b, a)
    ensures AtMost(a, b) && AtMost(b, a) ==> a == b
  {
    if a != [] && b != [] {
      AtMostTotal(a[1..], b[1..]);
      assert a == [a[0]] + a[1..] && b == [b[0]] + b[1..];
    }
  }

  lemma {:induction false} AtMostTransitive(a: string, b: string, c: string)
    requires AtMost(a, b) && AtMost(b, c)
    ensures AtMost(a, c)
  {
    if a != [] && a[0] == b[0] == c[0] { AtMostTransitive(a[1..], b[1..], c[1..]); }
  }

  // ── Signatures ─────────────────────────────────────────────────────────

  /** A line as a query returns it: its design rows in no particular order. */
  datatype Listed = Listed(variant: Option<Variant>, quantity: nat, unitPrice: nat, designs: seq<Design>)

  /** The string comparisons that are not code here: how keys collate, and how a signature is written as text. */
  datatype Text = Text(collate: (string, string) -> bool, json: Listed -> string)

  function ByKey(text: Text): (Design, Design) -> bool {
    (x: Design, y: Design) => text.collate(x.placementKey, y.placementKey)
  }

  /** A line with its designs in placement order: the value whose JSON is the signature. */
  function Normal(text: Text, l: Listed): Listed {
    l.(designs := Sorted(l.designs, ByKey(text)))
  }

  function Signature(text: Text): Listed -> string {
    (l: Listed) => text.json(Normal(text, l))
  }

  function Each<T, U>(s: seq<T>, f: T -> U): seq<U> {
    seq(|s|, i requires 0 <= i < |s| => f(s[i]))
  }

  predicate SameLines(text: Text, cart: seq<Listed>, order: seq<Listed>) {
    && |cart| == |order|
    && Sorted(Each(cart, Signature(text)), AtMost) == Sorted(Each(order, Signature(text)), AtMost)
  }

  /** Lines match exactly when their signatures form the same multiset, whatever the order of the lines. */
  lemma SameLinesIff(text: Text, cart: seq<Listed>, order: seq<Listed>)
    ensures SameLines(text, cart, order)
            <==> multiset(Each(cart, Signature(text))) == multiset(Each(order, Signature(text)))
  {
    forall x, y ensures AtMost(x, y) || AtMost(y, x) { AtMostTotal(x, y); }
    forall x, y, z | AtMost(x, y) && AtMost(y, z) ensures AtMost(x, z) { AtMostTransitive(x, y, z); }
    var a, b := Each(cart, Signature(text)), Each(order, Signature(text));
    forall x, y | x in a && y in a && AtMost(x, y) && AtMost(y, x) ensures x == y { AtMostTotal(x, y); }
    SortedEqualIff(a, b, AtMost);
    if multiset(a) == multiset(b) {
      assert |a| == |multiset(a)| == |multiset(b)| == |b|;
    }
  }

  /** Collation is an order that tells different keys apart, and different values have different JSON. */
  ghost predicate Faithful(text: Text) {
    && Total(text.collate) && Transitive(text.collate)
    && (forall x, y :: text.collate(x, y) && text.collate(y, x) ==> x == y)
    && (forall l, m :: text.json(l) == text.json(m) ==> l == m)
  }

  /** The unique key of design rows: no placement twice on one line. */
  predicate UniquePlacements(l: Listed) {
    forall i, j :: 0 <= i < j < |l.designs| ==> l.designs[i].placementKey != l.designs[j].placementKey
  }

  /** The line as stored: the design rows, in no order. */
  function Stored(): Listed -> Line {
    (l: Listed) => Line(l.variant, l.quantity, l.unitPrice, multiset(l.designs))
  }

  /** Column by column: what an order line keeps of a listed one. */
  lemma StoredColumns(l: Listed)
    ensures Stored()(l).variant == l.variant && Stored()(l).quantity == l.quantity
    ensures Stored()(l).unitPrice == l.unitPrice && Stored()(l).designs == multiset(l.designs)
  {
  }

  lemma PlacementsTellApart(text: Text, l: Listed)
    requires Faithful(text) && UniquePlacements(l)
    ensures Distinguished(l.designs, ByKey(text))
  {
    forall x, y | x in l.designs && y in l.designs && ByKey(text)(x, y) && ByKey(text)(y, x) ensures x == y {
      var i :| 0 <= i < |l.designs| && l.designs[i] == x;
      var j :| 0 <= j < |l.designs| && l.designs[j] == y;
      assert x.placementKey == y.placementKey;
      assert i == j;
    }
  }

  /** Two signatures agree exactly when the stored lines do. */
  lemma SignatureIff(text: Text, l: Listed, m: Listed)
    requires Faithful(text) && UniquePlacements(l)
    ensures Signature(text)(l) == Signature(text)(m) <==> Stored()(l) == Stored()(m)
  {
    var le := ByKey(text);
    assert forall x: Design, y: Design :: le(x, y) == text.collate(x.placementKey, y.placementKey);
    PlacementsTellApart(text, l);
    SortedEqualIff(l.designs, m.designs, le);
    assert Normal(text, l) == Normal(text, m)
           <==> l.(designs := []) == m.(designs := []) && Sorted(l.designs, le) == Sorted(m.designs, le);
  }

  lemma {:induction false} CountsAgree<T, U, V>(s: seq<T>, f: T -> U, g: T -> V, x: T)
    requires forall y :: y in s ==> (f(y) == f(x) <==> g(y) == g(x))
    ensures multiset(Each(s, f))[f(x)] == multiset(Each(s, g))[g(x)]
  {
    if s != [] {
      var front, y := s[..|s| - 1], s[|s| - 1];
      CountsAgree(front, f, g, x);
      assert Each(s, f) == Each(front, f) + [f(y)] && Each(s, g) == Each(front, g) + [g(y)];
    }
  }

  /** Two readings that identify the same elements compare lists alike. */
  lemma ReadingsAgree<T, U, V(!new)>(a: seq<T>, b: seq<T>, f: T -> U, g: T -> V)
    requires forall x, y :: x in a + b && y in a + b ==> (f(x) == f(y) <==> g(x) == g(y))
    requires multiset(Each(a, f)) == multiset(Each(b, f))
    ensures multiset(Each(a, g)) == multiset(Each(b, g))
  {
    var ga, gb := multiset(Each(a, g)), multiset(Each(b, g));
    forall v ensures ga[v] == gb[v] {
      if v in ga || v in gb {
        var x :| x in a + b && g(x) == v by { ReadingIsOfSome(a, b, g, v); }
        CountsAgree(a, f, g, x);
        CountsAgree(b, f, g, x);
      }
    }
    assert ga == gb;
  }

  lemma ReadingIsOfSome<T, V>(a: seq<T>, b: seq<T>, g: T -> V, v: V)
    requires v in multiset(Each(a, g)) || v in multiset(Each(b, g))
    ensures exists x :: x in a + b && g(x) == v
  {
    if v in Each(a, g) {
      var i :| 0 <= i < |a| && Each(a, g)[i] == v;
      assert a[i] in a + b;
    } else {
      assert v in Each(b, g);
      var i :| 0 <= i < |b| && Each(b, g)[i] == v;
      assert b[i] in a + b;
    }
  }

  /** The comparison decides whether cart and order store the same lines, whatever order lines and designs are listed in. */
  lemma SameLinesComparesStoredLines(text: Text, cart: seq<Listed>, order: seq<Listed>)
    requires Faithful(text)
    requires forall l :: l in cart + order ==> UniquePlacements(l)
    ensures SameLines(text, cart, order) <==> multiset(Each(cart, Stored())) == multiset(Each(order, Stored()))
  {
    SameLinesIff(text, cart, order);
    forall l, m | l in cart + order && m in cart + order
      ensures Signature(text)(l) == Signature(text)(m) <==> Stored()(l) == Stored()(m)
    {
      SignatureIff(text, l, m);
    }
    if SameLines(text, cart, order) { ReadingsAgree(cart, order, Signature(text), Stored()); }
    if multiset(Each(cart, Stored())) == multiset(Each(order, Stored())) { ReadingsAgree(cart, order, Stored(), Signature(text)); }
  }

  /** Checkout rebuilds an order exactly when no payment was started and the comparison of any listings of the two fails. */
  lemma OutdatedIff(text: Text, o: Order, cart: seq<Listed>, order: seq<Listed>)
    requires Faithful(text)
    requires forall l :: l in cart + order ==> UniquePlacements(l)
    requires multiset(o.lines) == multiset(Each(order, Stored()))
    ensures Outdated(o, Each(cart, Stored())) <==> o.paymentIntent.None? && !SameLines(text, cart, order)
  {
    SameLinesComparesStoredLines(text, cart, order);
  }
}
