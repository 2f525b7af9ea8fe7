/**
 * What every shape of an uploaded file is painted, read off the file itself:
 * the cascade a browser applies (src/personalization/svg-artwork.ts), stated
 * over the file's style rules and enclosing groups instead of over the loop's
 * paint stack and its table of rules.
 */
module SvgCascade {
  import opened Common
  import opened SvgArtwork

  // ── The stylesheet's last word ─────────────────────────────────────────

  /** One selector of one rule, by its place in the file. */
  datatype Place = Place(rule: nat, selector: nat)

  predicate Before(p: Place, q: Place) {
    p.rule < q.rule || (p.rule == q.rule && p.selector < q.selector)
  }

  predicate Fills(d: Declaration) {
    d.fill.Some? && d.fill.value != ""
  }

  predicate Placed(declarations: seq<Declaration>, p: Place) {
    && p.rule < |declarations| && p.selector < |declarations[p.rule].selectors| && Fills(declarations[p.rule])
    && !declarations[p.rule].selectors[p.selector].Unsupported?
  }

  function SelectorAt(declarations: seq<Declaration>, p: Place): Selector
    requires Placed(declarations, p)
  {
    declarations[p.rule].selectors[p.selector]
  }

  predicate Matches(s: Selector, tag: string, a: Attrs) {
    || (s.ById? && a.id == Some(s.name))
    || (s.ByClass? && s.name in a.classes)
    || (s.ByTag? && s.name == tag)
  }

  predicate Applies(declarations: seq<Declaration>, p: Place, tag: string, a: Attrs) {
    Placed(declarations, p) && Matches(SelectorAt(declarations, p), tag, a)
  }

  /** An id beats a class, and either beats a tag name. */
  predicate Outranks(s: Selector, t: Selector) {
    (s.ById? && !t.ById?) || (s.ByClass? && t.ByTag?)
  }

  predicate Overrides(declarations: seq<Declaration>, p: Place, q: Place)
    requires Placed(declarations, p) && Placed(declarations, q)
  {
    var s, t := SelectorAt(declarations, p), SelectorAt(declarations, q);
    Outranks(s, t) || (!Outranks(t, s) && Before(q, p))
  }

  /** The selector at p overrides every other one that applies. */
  ghost predicate LastWord(declarations: seq<Declaration>, p: Place, tag: string, a: Attrs) {
    && Applies(declarations, p, tag, a)
    && forall q :: Applies(declarations, q, tag, a) && q != p ==> Overrides(declarations, p, q)
  }

  ghost predicate SheetSilent(declarations: seq<Declaration>, tag: string, a: Attrs) {
    forall p :: !Applies(declarations, p, tag, a)
  }

  /** The paint an element declares: its style attribute's, else the sheet's last word, else its fill attribute's. */
  ghost predicate Declares(declarations: seq<Declaration>, tag: string, a: Attrs, raw: string) {
    if a.styleFill.Some? then raw == a.styleFill.value
    else
      || (exists p :: LastWord(declarations, p, tag, a) && declarations[p.rule].fill == Some(raw))
      || (SheetSilent(declarations, tag, a) && a.fill == Some(raw))
  }

  ghost predicate DeclaresNone(declarations: seq<Declaration>, tag: string, a: Attrs) {
    a.styleFill.None? && SheetSilent(declarations, tag, a) && a.fill.None?
  }

  /** The paint of the nearest enclosing group that declares one; black when none does. */
  ghost predicate Inherits(declarations: seq<Declaration>, groups: seq<Group>, raw: string) {
    || (exists i ::
          && 0 <= i < |groups| && Declares(declarations, groups[i].tag, groups[i].attrs, raw)
          && forall j :: i < j < |groups| ==> DeclaresNone(declarations, groups[j].tag, groups[j].attrs))
    || ((forall j :: 0 <= j < |groups| ==> DeclaresNone(declarations, groups[j].tag, groups[j].attrs)) && raw == "#000000")
  }

  // ── The table of rules says the same ───────────────────────────────────

  function PlacesOf(rule: nat, selectors: seq<Selector>): seq<Place> {
    if selectors == [] then []
    else
      var n := |selectors| - 1;
      PlacesOf(rule, selectors[..n]) + if selectors[n].Unsupported? then [] else [Place(rule, n)]
  }

  /** Where each rule of the table comes from. */
  function Places(declarations: seq<Declaration>): seq<Place> {
    if declarations == [] then []
    else
      var n := |declarations| - 1;
      Places(declarations[..n]) + if Fills(declarations[n]) then PlacesOf(n, declarations[n].selectors) else []
  }

  ghost predicate Ordered(places: seq<Place>) {
    forall i, j :: 0 <= i < j < |places| ==> Before(places[i], places[j])
  }

  /** An id rule ranks 3, a class rule 2, a tag rule 1. */
  function RankOf(s: Selector): nat {
    if s.ById? then 3 else if s.ByClass? then 2 else if s.ByTag? then 1 else 0
  }

  ghost predicate ReadFrom(declarations: seq<Declaration>, rule: Rule, p: Place, order: nat) {
    && Placed(declarations, p)
    && rule == Rule(SelectorAt(declarations, p), declarations[p.rule].fill.value, RankOf(SelectorAt(declarations, p)), order)
  }

  ghost predicate AllReadFrom(declarations: seq<Declaration>, rules: seq<Rule>, places: seq<Place>) {
    |rules| == |places| && forall i :: 0 <= i < |places| ==> ReadFrom(declarations, rules[i], places[i], i)
  }

  ghost predicate Complete(declarations: seq<Declaration>, places: seq<Place>) {
    forall p :: Placed(declarations, p) ==> p in places
  }

  /** The rules and places so far, all of them before p. */
  ghost predicate Table(declarations: seq<Declaration>, rules: seq<Rule>, places: seq<Place>, p: Place) {
    && AllReadFrom(declarations, rules, places) && Ordered(places)
    && forall i :: 0 <= i < |places| ==> Before(places[i], p)
  }

  lemma TableAppend(declarations: seq<Declaration>, rules: seq<Rule>, places: seq<Place>, rule: Rule, p: Place)
    requires Table(declarations, rules, places, p) && ReadFrom(declarations, rule, p, |rules|)
    ensures Table(declarations, rules + [rule], places + [p], Place(p.rule, p.selector + 1))
  {
    forall i | 0 <= i < |rules + [rule]| ensures ReadFrom(declarations, (rules + [rule])[i], (places + [p])[i], i) {
      if i < |rules| { assert ReadFrom(declarations, rules[i], places[i], i); }
    }
  }

  lemma TableLater(declarations: seq<Declaration>, rules: seq<Rule>, places: seq<Place>, p: Place, q: Place)
    requires Table(declarations, rules, places, p) && Before(p, q)
    ensures Table(declarations, rules, places, q)
  {
  }

  lemma {:induction false} SelectorTable(declarations: seq<Declaration>, rules: seq<Rule>, places: seq<Place>, n: nat, k: nat)
    requires Table(declarations, rules, places, Place(n, 0))
    requires n < |declarations| && Fills(declarations[n]) && k <= |declarations[n].selectors|
    ensures var front := declarations[n].selectors[..k];
            Table(declarations, WithSelectors(rules, front, declarations[n].fill.value), places + PlacesOf(n, front), Place(n, k))
  {
    var d := declarations[n];
    if k == 0 {
      assert places + PlacesOf(n, d.selectors[..0]) == places;
    } else {
      SelectorTable(declarations, rules, places, n, k - 1);
      assert d.selectors[..k][..k - 1] == d.selectors[..k - 1];
      var s, before := d.selectors[k - 1], WithSelectors(rules, d.selectors[..k - 1], d.fill.value);
      var known := places + PlacesOf(n, d.selectors[..k - 1]);
      if s.Unsupported? {
        TableLater(declarations, before, known, Place(n, k - 1), Place(n, k));
      } else {
        TableAppend(declarations, before, known, Rule(s, d.fill.value, RankOf(s), |before|), Place(n, k - 1));
        assert places + PlacesOf(n, d.selectors[..k]) == known + [Place(n, k - 1)];
      }
    }
  }

  lemma {:induction false} DeclarationTable(declarations: seq<Declaration>, n: nat)
    requires n <= |declarations|
    ensures Table(declarations, Sheet(declarations[..n]), Places(declarations[..n]), Place(n, 0))
  {
    if n > 0 {
      DeclarationTable(declarations, n - 1);
      assert declarations[..n][..n - 1] == declarations[..n - 1];
      var d, rules, places := declarations[n - 1], Sheet(declarations[..n - 1]), Places(declarations[..n - 1]);
      if Fills(d) {
        SelectorTable(declarations, rules, places, n - 1, |d.selectors|);
        assert d.selectors[..|d.selectors|] == d.selectors;
        TableLater(declarations, Sheet(declarations[..n]), Places(declarations[..n]), Place(n - 1, |d.selectors|), Place(n, 0));
      } else {
        assert Places(declarations[..n]) == places;
        TableLater(declarations, rules, places, Place(n - 1, 0), Place(n, 0));
      }
    }
  }

  /** Rule i of the table is the selector at place i. */
  lemma SheetPlaces(declarations: seq<Declaration>)
    ensures Ordered(Places(declarations)) && AllReadFrom(declarations, Sheet(declarations), Places(declarations))
  {
    DeclarationTable(declarations, |declarations|);
    assert declarations[..|declarations|] == declarations;
  }

  lemma {:induction false} PlacesOfAll(rule: nat, selectors: seq<Selector>, k: nat)
    requires k < |selectors| && !selectors[k].Unsupported?
    ensures Place(rule, k) in PlacesOf(rule, selectors)
  {
    if k < |selectors| - 1 { PlacesOfAll(rule, selectors[..|selectors| - 1], k); }
  }

  /** And no usable selector is missing. */
  lemma {:induction false} PlacesComplete(declarations: seq<Declaration>)
    ensures Complete(declarations, Places(declarations))
  {
    if declarations != [] {
      var n := |declarations| - 1;
      PlacesComplete(declarations[..n]);
      forall p | Placed(declarations, p) ensures p in Places(declarations) {
        if p.rule < n {
          assert Placed(declarations[..n], p);
        } else {
          PlacesOfAll(n, declarations[n].selectors, p.selector);
        }
      }
    }
  }

  /** A rule of the table hits exactly the elements its selector applies to, and is beaten by what overrides it. */
  lemma TableAgrees(declarations: seq<Declaration>, i: nat, j: nat, tag: string, a: Attrs)
    requires Ordered(Places(declarations)) && AllReadFrom(declarations, Sheet(declarations), Places(declarations))
    requires i < |Sheet(declarations)| && j < |Sheet(declarations)|
    ensures var rules, places := Sheet(declarations), Places(declarations);
            && (Hits(rules[i], tag, a) <==> Applies(declarations, places[i], tag, a))
            && rules[i].fill == declarations[places[i].rule].fill.value
            && (i != j ==> (Beats(rules[i], rules[j]) <==> Overrides(declarations, places[i], places[j])))
  {
    var rules, places := Sheet(declarations), Places(declarations);
    assert ReadFrom(declarations, rules[i], places[i], i) && ReadFrom(declarations, rules[j], places[j], j);
  }

  lemma PlaceIndex(declarations: seq<Declaration>, p: Place) returns (i: nat)
    requires Complete(declarations, Places(declarations)) && Placed(declarations, p)
    ensures i < |Places(declarations)| && Places(declarations)[i] == p
  {
    i :| 0 <= i < |Places(declarations)| && Places(declarations)[i] == p;
  }

  lemma NoHitIsSilent(declarations: seq<Declaration>, tag: string, a: Attrs)
    requires Best(Sheet(declarations), tag, a).None?
    ensures SheetSilent(declarations, tag, a)
  {
    SheetPlaces(declarations);
    PlacesComplete(declarations);
    forall p | Placed(declarations, p) ensures !Applies(declarations, p, tag, a) {
      var i := PlaceIndex(declarations, p);
      TableAgrees(declarations, i, i, tag, a);
      assert Sheet(declarations)[i] in Sheet(declarations);
    }
  }

  lemma BestIsTheLastWord(declarations: seq<Declaration>, tag: string, a: Attrs, i: nat)
    requires i < |Sheet(declarations)| == |Places(declarations)| && Best(Sheet(declarations), tag, a) == Some(Sheet(declarations)[i])
    ensures LastWord(declarations, Places(declarations)[i], tag, a)
    ensures declarations[Places(declarations)[i].rule].fill == Some(Sheet(declarations)[i].fill)
  {
    SheetPlaces(declarations);
    PlacesComplete(declarations);
    TableAgrees(declarations, i, i, tag, a);
    forall q | Applies(declarations, q, tag, a) && q != Places(declarations)[i]
      ensures Overrides(declarations, Places(declarations)[i], q)
    {
      var j := PlaceIndex(declarations, q);
      TableAgrees(declarations, j, i, tag, a);
      assert Sheet(declarations)[j] in Sheet(declarations);
      EitherOverrides(declarations, Places(declarations)[i], q);
    }
  }

  lemma EitherOverrides(declarations: seq<Declaration>, p: Place, q: Place)
    requires Placed(declarations, p) && Placed(declarations, q) && p != q
    ensures Overrides(declarations, p, q) <==> !Overrides(declarations, q, p)
  {
  }

  /** The fill the loop over the table picks is the last word of the sheet. */
  lemma CssFillIsTheLastWord(declarations: seq<Declaration>, tag: string, a: Attrs)
    ensures var fill := CssFillOf(Sheet(declarations), tag, a);
            if fill.None? then SheetSilent(declarations, tag, a)
            else exists p :: LastWord(declarations, p, tag, a) && declarations[p.rule].fill == fill
  {
    var rules := Sheet(declarations);
    var best := Best(rules, tag, a);
    if best.None? {
      NoHitIsSilent(declarations, tag, a);
    } else {
      SheetPlaces(declarations);
      var i :| 0 <= i < |rules| && rules[i] == best.value;
      BestIsTheLastWord(declarations, tag, a, i);
    }
  }

  /** At most one selector has the last word. */
  lemma OneLastWord(declarations: seq<Declaration>, p: Place, q: Place, tag: string, a: Attrs)
    requires LastWord(declarations, p, tag, a) && LastWord(declarations, q, tag, a)
    ensures p == q
  {
    if p != q { EitherOverrides(declarations, p, q); }
  }

  /** The order of the cascade: style, sheet, attribute. */
  lemma OwnFillIff(style: Style, declarations: seq<Declaration>, tag: string, a: Attrs, raw: string)
    requires style.sheet == Sheet(declarations)
    ensures OwnFill(style, tag, a) == Some(raw) <==> Declares(declarations, tag, a, raw)
    ensures OwnFill(style, tag, a).None? <==> DeclaresNone(declarations, tag, a)
  {
    CssFillIsTheLastWord(declarations, tag, a);
    var fill := CssFillOf(style.sheet, tag, a);
    if fill.Some? {
      var p :| LastWord(declarations, p, tag, a) && declarations[p.rule].fill == fill;
      assert Applies(declarations, p, tag, a);
      forall q | LastWord(declarations, q, tag, a) ensures q == p { OneLastWord(declarations, p, q, tag, a); }
    }
  }

  lemma {:induction false} InheritedFillIff(style: Style, declarations: seq<Declaration>, groups: seq<Group>)
    requires style.sheet == Sheet(declarations)
    ensures Inherits(declarations, groups, InheritedFill(style, groups))
  {
    if groups != [] {
      var n := |groups| - 1;
      var g, raw := groups[n], InheritedFill(style, groups);
      OwnFillIff(style, declarations, g.tag, g.attrs, raw);
      if OwnFill(style, g.tag, g.attrs).None? {
        InheritedFillIff(style, declarations, groups[..n]);
        if i :| && 0 <= i < n && Declares(declarations, groups[..n][i].tag, groups[..n][i].attrs, raw)
                && forall j :: i < j < n ==> DeclaresNone(declarations, groups[..n][j].tag, groups[..n][j].attrs) {
          assert Declares(declarations, groups[i].tag, groups[i].attrs, raw);
          forall j | i < j < |groups| ensures DeclaresNone(declarations, groups[j].tag, groups[j].attrs) {
            if j < n { assert groups[j] == groups[..n][j]; }
          }
        } else {
          forall j | 0 <= j < |groups| ensures DeclaresNone(declarations, groups[j].tag, groups[j].attrs) {
            if j < n { assert groups[j] == groups[..n][j]; }
          }
        }
      }
    }
  }

  // ── One element ────────────────────────────────────────────────────────

  /** An element that is drawn, and the groups around it, outermost first. */
  datatype Visible = Visible(tag: string, attrs: Attrs, groups: seq<Group>)

  /** The paint an element takes, and the one it would inherit. */
  ghost predicate Takes(declarations: seq<Declaration>, e: Visible, raw: string, inherited: string) {
    && Inherits(declarations, e.groups, inherited)
    && (Declares(declarations, e.tag, e.attrs, raw) || (DeclaresNone(declarations, e.tag, e.attrs) && raw == inherited))
  }

  /** The colour on the shape: `currentColor` stands for the inherited paint. */
  predicate Colours(paint: string -> Paint, raw: string, inherited: string, fill: string) {
    fill != "" && (paint(raw) == Solid(fill) || (paint(raw) == CurrentColor && fill == inherited))
  }

  ghost predicate PaintedAs(declarations: seq<Declaration>, paint: string -> Paint, e: Visible, shape: Shape) {
    && (exists raw, inherited :: Takes(declarations, e, raw, inherited) && Colours(paint, raw, inherited, shape.fill))
    && e.attrs.geometry == Outline(shape.d) && shape.d != ""
    && var t := Joined(Transforms(e.groups) + [e.attrs.transform]);
       shape.transform == if t == "" || |t| > 400 then None else Some(t)
  }

  ghost predicate Shows(declarations: seq<Declaration>, paint: string -> Paint, e: Visible) {
    exists shape :: PaintedAs(declarations, paint, e, shape)
  }

  /** A gradient or unreadable colour, or a coloured path that cannot be read, and the error each stands for. */
  ghost predicate Spoils(declarations: seq<Declaration>, paint: string -> Paint, e: Visible, error: SvgError) {
    exists raw, inherited ::
      && Takes(declarations, e, raw, inherited)
      && (|| (paint(raw).Gradient? && error == GradientPaint)
          || (paint(raw).Unreadable? && error == UnreadableColour)
          || (e.attrs.geometry.BadData? && error == UnreadablePath && exists fill :: Colours(paint, raw, inherited, fill)))
  }

  lemma {:induction false} InheritsOne(declarations: seq<Declaration>, style: Style, groups: seq<Group>, raw: string)
    requires style.sheet == Sheet(declarations) && Inherits(declarations, groups, raw)
    ensures raw == InheritedFill(style, groups)
  {
    if groups != [] {
      var n := |groups| - 1;
      var g := groups[n];
      OwnFillIff(style, declarations, g.tag, g.attrs, raw);
      if OwnFill(style, g.tag, g.attrs).None? {
        assert DeclaresNone(declarations, g.tag, g.attrs);
        if i :| && 0 <= i < |groups| && Declares(declarations, groups[i].tag, groups[i].attrs, raw)
                && forall j :: i < j < |groups| ==> DeclaresNone(declarations, groups[j].tag, groups[j].attrs) {
          assert Declares(declarations, groups[..n][i].tag, groups[..n][i].attrs, raw);
        }
        InheritsOne(declarations, style, groups[..n], raw);
      } else if exists i :: && 0 <= i < n && Declares(declarations, groups[i].tag, groups[i].attrs, raw)
                            && forall j :: i < j < |groups| ==> DeclaresNone(declarations, groups[j].tag, groups[j].attrs) {
        assert false;
      }
    }
  }

  lemma TakesOne(declarations: seq<Declaration>, style: Style, e: Visible, raw: string, inherited: string)
    requires style.sheet == Sheet(declarations)
    ensures Takes(declarations, e, raw, inherited) <==>
            && inherited == InheritedFill(style, e.groups)
            && var own := OwnFill(style, e.tag, e.attrs); raw == if own.Some? then own.value else inherited
  {
    InheritedFillIff(style, declarations, e.groups);
    OwnFillIff(style, declarations, e.tag, e.attrs, raw);
    if Inherits(declarations, e.groups, inherited) { InheritsOne(declarations, style, e.groups, inherited); }
  }

  /** What the reader makes of one drawn element is what the cascade and the groups around it say. */
  lemma InkIff(style: Style, declarations: seq<Declaration>, e: Visible)
    requires style.sheet == Sheet(declarations)
    ensures var marks := Ink(style, e.tag, e.attrs, e.groups);
            && (forall shape :: marks == [Inked(shape)] <==> PaintedAs(declarations, style.paint, e, shape))
            && (forall error :: marks == [Refused(error)] <==> Spoils(declarations, style.paint, e, error))
            && (marks == [] || exists m :: marks == [m] && (m.Inked? || m.Refused?))
  {
    var inherited := InheritedFill(style, e.groups);
    var own := OwnFill(style, e.tag, e.attrs);
    var raw := if own.Some? then own.value else inherited;
    forall r, i ensures Takes(declarations, e, r, i) <==> r == raw && i == inherited { TakesOne(declarations, style, e, r, i); }
    assert Takes(declarations, e, raw, inherited);
    var fill := match style.paint(raw) case Solid(hex) => hex case CurrentColor => inherited case _ => "";
    assert forall f :: Colours(style.paint, raw, inherited, f) <==> f == fill && f != "";
    assert Colours(style.paint, raw, inherited, fill) <==> fill != "";
    InkMarks(style, e, raw, inherited, fill);
    forall error ensures Spoils(declarations, style.paint, e, error) <==>
              || (style.paint(raw).Gradient? && error == GradientPaint)
              || (style.paint(raw).Unreadable? && error == UnreadableColour)
              || (e.attrs.geometry.BadData? && error == UnreadablePath && exists f :: Colours(style.paint, raw, inherited, f))
    {
    }
  }

  /** The mark of an element whose paint is known. */
  lemma InkMarks(style: Style, e: Visible, raw: string, inherited: string, fill: string)
    requires inherited == InheritedFill(style, e.groups)
    requires var own := OwnFill(style, e.tag, e.attrs); raw == if own.Some? then own.value else inherited
    requires fill == match style.paint(raw) case Solid(hex) => hex case CurrentColor => inherited case _ => ""
    ensures Ink(style, e.tag, e.attrs, e.groups) ==
            if style.paint(raw).Gradient? then [Refused(GradientPaint)]
            else if style.paint(raw).Unreadable? then [Refused(UnreadableColour)]
            else if fill == "" || e.attrs.geometry.NoArea? then []
            else if e.attrs.geometry.BadData? then [Refused(UnreadablePath)]
            else if e.attrs.geometry.d == "" then []
            else
              var t := Joined(Transforms(e.groups) + [e.attrs.transform]);
              [Inked(Shape(e.attrs.geometry.d, fill, if t == "" || |t| > 400 then None else Some(t)))]
  {
  }

  // ── The whole file ─────────────────────────────────────────────────────

  predicate Draws(tag: string) {
    tag in {"path", "rect", "circle", "ellipse", "polygon", "polyline"}
  }

  predicate Nests(tag: string) {
    tag in {"g", "svg"}
  }

  predicate Hides(tag: string) {
    tag in {"text", "tspan", "textpath", "defs", "clippath", "mask", "marker", "pattern", "symbol", "title", "desc", "metadata",
            "style", "filter", "lineargradient", "radialgradient"}
  }

  lemma KindsAre(tag: string)
    ensures Hides(tag) <==> KindOf(tag).Skipped? || KindOf(tag).Lettering?
    ensures Draws(tag) <==> KindOf(tag).Drawn?
    ensures Nests(tag) <==> KindOf(tag).Grouping?
  {
  }

  /** The shape elements of a subtree that nothing hides, in document order. */
  function VisibleIn(n: Node, groups: seq<Group>): seq<Visible>
    decreases n, 1
  {
    if Hides(n.tag) then []
    else if Draws(n.tag) then [Visible(n.tag, n.attrs, groups)] + VisibleInside(n, groups)
    else VisibleInside(n, if Nests(n.tag) then groups + [Group(n.tag, n.attrs)] else groups)
  }

  function VisibleInside(n: Node, groups: seq<Group>): seq<Visible>
    decreases n, 0
  {
    if n.Leaf? then [] else VisibleAll(n.children, groups)
  }

  function VisibleAll(ns: seq<Node>, groups: seq<Group>): seq<Visible>
    decreases ns, 2
  {
    if ns == [] then [] else VisibleIn(ns[0], groups) + VisibleAll(ns[1..], groups)
  }

  function Inks(style: Style, es: seq<Visible>): seq<Mark> {
    if es == [] then [] else Ink(style, es[0].tag, es[0].attrs, es[0].groups) + Inks(style, es[1..])
  }

  lemma {:induction false} InksAppend(style: Style, a: seq<Visible>, b: seq<Visible>)
    ensures Inks(style, a + b) == Inks(style, a) + Inks(style, b)
  {
    if a == [] {
      assert a + b == b;
    } else {
      assert (a + b)[1..] == a[1..] + b;
      InksAppend(style, a[1..], b);
    }
  }

  lemma {:induction false} ShapesOfAppend(m: seq<Mark>, n: seq<Mark>)
    ensures ShapesOf(m + n) == ShapesOf(m) + ShapesOf(n)
  {
    if m == [] {
      assert m + n == n;
    } else {
      assert (m + n)[0] == m[0] && (m + n)[1..] == m[1..] + n;
      ShapesOfAppend(m[1..], n);
      var first := if m[0].Inked? then [m[0].shape] else [];
      assert first + (ShapesOf(m[1..]) + ShapesOf(n)) == (first + ShapesOf(m[1..])) + ShapesOf(n);
    }
  }

  ghost predicate SameRefusals(m: seq<Mark>, n: seq<Mark>) {
    forall error :: Refused(error) in m <==> Refused(error) in n
  }

  /** Two lists of marks that draw the same: the same shapes, and the same refusals. */
  ghost predicate Alike(m: seq<Mark>, n: seq<Mark>) {
    ShapesOf(m) == ShapesOf(n) && SameRefusals(m, n)
  }

  lemma AlikeAppend(m: seq<Mark>, m': seq<Mark>, n: seq<Mark>, n': seq<Mark>)
    requires Alike(m, m') && Alike(n, n')
    ensures Alike(m + n, m' + n')
  {
    ShapesOfAppend(m, n);
    ShapesOfAppend(m', n');
  }

  lemma InksOfOne(style: Style, e: Visible)
    ensures Inks(style, [e]) == Ink(style, e.tag, e.attrs, e.groups)
  {
    assert [e][1..] == [];
  }

  lemma AlikeAfterPicture(m: seq<Mark>, m': seq<Mark>)
    requires Alike(m, m')
    ensures Alike([Photo] + m, m')
  {
    AlikeAppend([Photo], [], m, m');
    assert [] + m' == m';
  }

  lemma AlikeAfterInk(style: Style, e: Visible, m: seq<Mark>, es: seq<Visible>)
    requires Alike(m, Inks(style, es))
    ensures Alike(Ink(style, e.tag, e.attrs, e.groups) + m, Inks(style, [e] + es))
  {
    InksOfOne(style, e);
    InksAppend(style, [e], es);
    AlikeAppend(Ink(style, e.tag, e.attrs, e.groups), Inks(style, [e]), m, Inks(style, es));
  }

  /** The marks of a subtree are those of its visible elements, but for lettering and pictures. */
  lemma {:induction false} MarksOfVisible(style: Style, n: Node, groups: seq<Group>)
    ensures Alike(Marks(style, n, groups), Inks(style, VisibleIn(n, groups)))
    decreases n, 1
  {
    KindsAre(n.tag);
    MarksInsideVisible(style, n, if KindOf(n.tag).Grouping? then groups + [Group(n.tag, n.attrs)] else groups);
    match KindOf(n.tag)
    case Raster => AlikeAfterPicture(MarksInside(style, n, groups), Inks(style, VisibleInside(n, groups)));
    case Drawn => AlikeAfterInk(style, Visible(n.tag, n.attrs, groups), MarksInside(style, n, groups), VisibleInside(n, groups));
    case _ =>
  }

  lemma {:induction false} MarksInsideVisible(style: Style, n: Node, groups: seq<Group>)
    ensures Alike(MarksInside(style, n, groups), Inks(style, VisibleInside(n, groups)))
    decreases n, 0
  {
    if n.Element? { MarksAllVisible(style, n.children, groups); }
  }

  lemma {:induction false} MarksAllVisible(style: Style, ns: seq<Node>, groups: seq<Group>)
    ensures Alike(MarksAll(style, ns, groups), Inks(style, VisibleAll(ns, groups)))
    decreases ns, 2
  {
    if ns != [] {
      MarksOfVisible(style, ns[0], groups);
      MarksAllVisible(style, ns[1..], groups);
      InksAppend(style, VisibleIn(ns[0], groups), VisibleAll(ns[1..], groups));
      AlikeAppend(Marks(style, ns[0], groups), Inks(style, VisibleIn(ns[0], groups)),
                  MarksAll(style, ns[1..], groups), Inks(style, VisibleAll(ns[1..], groups)));
    }
  }

  ghost predicate Increasing(picked: seq<nat>, n: nat) {
    && (forall i :: 0 <= i < |picked| ==> picked[i] < n)
    && (forall i, j :: 0 <= i < j < |picked| ==> picked[i] < picked[j])
  }

  /** `picked` are the elements that show. */
  ghost predicate Picks(declarations: seq<Declaration>, paint: string -> Paint, es: seq<Visible>, picked: seq<nat>) {
    Increasing(picked, |es|) && forall k :: 0 <= k < |es| ==> (k in picked <==> Shows(declarations, paint, es[k]))
  }

  /** The shapes are those of the elements picked, in order. */
  ghost predicate Portrait(declarations: seq<Declaration>, paint: string -> Paint, es: seq<Visible>, picked: seq<nat>, shapes: seq<Shape>) {
    |shapes| == |picked| && forall i :: 0 <= i < |picked| ==> picked[i] < |es| && PaintedAs(declarations, paint, es[picked[i]], shapes[i])
  }

  /** The shape the reader draws for an element, if any. */
  function DrawnFor(style: Style): Visible -> Option<Shape> {
    (e: Visible) =>
      var ink := Ink(style, e.tag, e.attrs, e.groups);
      if ink != [] && ink[0].Inked? then Some(ink[0].shape) else None
  }

  function PickedIn(drawn: Visible -> Option<Shape>, es: seq<Visible>): seq<nat> {
    if es == [] then []
    else
      var n := |es| - 1;
      PickedIn(drawn, es[..n]) + if drawn(es[n]).Some? then [n] else []
  }

  function ShapesIn(drawn: Visible -> Option<Shape>, es: seq<Visible>): seq<Shape> {
    if es == [] then []
    else
      var n := |es| - 1;
      ShapesIn(drawn, es[..n]) + if drawn(es[n]).Some? then [drawn(es[n]).value] else []
  }

  lemma {:induction false} PickedIs(drawn: Visible -> Option<Shape>, es: seq<Visible>)
    ensures var picked, shapes := PickedIn(drawn, es), ShapesIn(drawn, es);
            && Increasing(picked, |es|) && |shapes| == |picked|
            && (forall k :: 0 <= k < |es| ==> (k in picked <==> drawn(es[k]).Some?))
            && (forall i :: 0 <= i < |picked| ==> drawn(es[picked[i]]) == Some(shapes[i]))
  {
    if es != [] {
      PickedIs(drawn, es[..|es| - 1]);
    }
  }

  ghost predicate SpoiltBy(declarations: seq<Declaration>, paint: string -> Paint, es: seq<Visible>, error: SvgError) {
    exists k :: 0 <= k < |es| && Spoils(declarations, paint, es[k], error)
  }

  ghost predicate Unspoilt(declarations: seq<Declaration>, paint: string -> Paint, es: seq<Visible>) {
    forall error :: !SpoiltBy(declarations, paint, es, error)
  }

  lemma SpoiltMore(declarations: seq<Declaration>, paint: string -> Paint, es: seq<Visible>, e: Visible, error: SvgError)
    ensures SpoiltBy(declarations, paint, es + [e], error) <==>
            SpoiltBy(declarations, paint, es, error) || Spoils(declarations, paint, e, error)
  {
    if SpoiltBy(declarations, paint, es, error) {
      var k :| 0 <= k < |es| && Spoils(declarations, paint, es[k], error);
      assert (es + [e])[k] == es[k];
    }
    if Spoils(declarations, paint, e, error) { assert (es + [e])[|es|] == e; }
  }

  /** One more element adds its own mark. */
  lemma InksMore(style: Style, declarations: seq<Declaration>, es: seq<Visible>, e: Visible)
    requires style.sheet == Sheet(declarations)
    ensures var m, m', ink := Inks(style, es), Inks(style, es + [e]), Ink(style, e.tag, e.attrs, e.groups);
            && (forall error :: Refused(error) in m' <==> Refused(error) in m || Spoils(declarations, style.paint, e, error))
            && ShapesOf(m') == ShapesOf(m) + (if ink != [] && ink[0].Inked? then [ink[0].shape] else [])
  {
    var ink := Ink(style, e.tag, e.attrs, e.groups);
    InksAppend(style, es, [e]);
    InksOfOne(style, e);
    ShapesOfAppend(Inks(style, es), ink);
    InkIff(style, declarations, e);
    if ink != [] { assert ink[1..] == []; }
  }

  lemma {:induction false} InksShapes(style: Style, declarations: seq<Declaration>, es: seq<Visible>)
    requires style.sheet == Sheet(declarations)
    ensures ShapesOf(Inks(style, es)) == ShapesIn(DrawnFor(style), es)
  {
    if es != [] {
      var n := |es| - 1;
      InksShapes(style, declarations, es[..n]);
      InksMore(style, declarations, es[..n], es[n]);
      assert es[..n] + [es[n]] == es;
    }
  }

  lemma InksPortrait(style: Style, declarations: seq<Declaration>, es: seq<Visible>) returns (picked: seq<nat>)
    requires style.sheet == Sheet(declarations)
    ensures Picks(declarations, style.paint, es, picked) && Portrait(declarations, style.paint, es, picked, ShapesOf(Inks(style, es)))
  {
    var drawn := DrawnFor(style);
    picked := PickedIn(drawn, es);
    PickedIs(drawn, es);
    InksShapes(style, declarations, es);
    forall k | 0 <= k < |es|
      ensures drawn(es[k]).Some? <==> Shows(declarations, style.paint, es[k])
      ensures drawn(es[k]).Some? ==> PaintedAs(declarations, style.paint, es[k], drawn(es[k]).value)
    {
      if drawn(es[k]).Some? {
        InkShows(style, declarations, es[k], drawn(es[k]).value);
      } else {
        InkHides(style, declarations, es[k]);
      }
    }
  }

  lemma {:induction false} InksRefused(style: Style, declarations: seq<Declaration>, es: seq<Visible>, error: SvgError)
    requires style.sheet == Sheet(declarations)
    ensures Refused(error) in Inks(style, es) <==> SpoiltBy(declarations, style.paint, es, error)
  {
    if es != [] {
      var n := |es| - 1;
      assert es == es[..n] + [es[n]];
      InksRefused(style, declarations, es[..n], error);
      InksMore(style, declarations, es[..n], es[n]);
      SpoiltMore(declarations, style.paint, es[..n], es[n], error);
    }
  }

  lemma InkShows(style: Style, declarations: seq<Declaration>, e: Visible, shape: Shape)
    requires style.sheet == Sheet(declarations)
    requires var ink := Ink(style, e.tag, e.attrs, e.groups); ink != [] && ink[0] == Inked(shape)
    ensures PaintedAs(declarations, style.paint, e, shape)
  {
    InkIff(style, declarations, e);
    var ink := Ink(style, e.tag, e.attrs, e.groups);
    assert ink == [ink[0]];
  }

  lemma InkHides(style: Style, declarations: seq<Declaration>, e: Visible)
    requires style.sheet == Sheet(declarations)
    requires var ink := Ink(style, e.tag, e.attrs, e.groups); ink == [] || !ink[0].Inked?
    ensures !Shows(declarations, style.paint, e)
  {
    InkIff(style, declarations, e);
  }

  lemma ReadableIff(marks: seq<Mark>)
    ensures Readable(marks) <==> forall error :: Refused(error) !in marks
  {
    if !Readable(marks) {
      var i :| 0 <= i < |marks| && marks[i].Refused?;
      assert Refused(marks[i].error) in marks;
    }
  }

  /** An error on the canvas is a refusal met, or one shape too many. */
  lemma {:induction false} PutAllError(c: Canvas, marks: seq<Mark>)
    requires |c.shapes| <= MAX_SHAPES
    ensures PutAll(c, marks).Err? ==>
              var error := PutAll(c, marks).error;
              Refused(error) in marks || (error == TooManyShapes && |c.shapes| + |ShapesOf(marks)| > MAX_SHAPES)
    decreases marks
  {
    if marks != [] {
      var r := Put(c, marks[0]);
      assert marks == [marks[0]] + marks[1..];
      if r.Ok? { PutAllError(r.value, marks[1..]); }
    }
  }

  /**
   * A file is read exactly when no visible element has a gradient, an unreadable
   * colour or an unreadable coloured path, and at most 400 elements show. The
   * shapes are then the elements that show, in order, each in the colour the
   * cascade gives it: style, stylesheet (id over class over tag, later over
   * earlier), attribute, and failing those the nearest group's, or black. A
   * refusal is for one of those faults, or for the number of shapes. The root
   * group stands twice at the head of every element's groups.
   */
  lemma FileIsPainted(style: Style, declarations: seq<Declaration>, root: Attrs, children: seq<Node>) returns (picked: seq<nat>)
    requires style.sheet == Sheet(declarations)
    ensures var g, r := Group("svg", root), Scanned(style, root, children);
            var es := VisibleAll(children, [g, g]);
            && Picks(declarations, style.paint, es, picked)
            && (r.Ok? <==> Unspoilt(declarations, style.paint, es) && |picked| <= 400)
            && (r.Ok? ==> Portrait(declarations, style.paint, es, picked, r.value.shapes))
            && (r.Err? ==> SpoiltBy(declarations, style.paint, es, r.error) || (r.error == TooManyShapes && |picked| > 400))
  {
    var g := Group("svg", root);
    var marks, es := MarksAll(style, children, [g, g]), VisibleAll(children, [g, g]);
    ScanDrawsTheTree(style, root, children);
    MarksAllVisible(style, children, [g, g]);
    picked := InksPortrait(style, declarations, es);
    InksOutcome(style, declarations, es, marks);
  }

  /** A canvas takes the marks of a file as it would those of its visible elements. */
  lemma InksOutcome(style: Style, declarations: seq<Declaration>, es: seq<Visible>, marks: seq<Mark>)
    requires style.sheet == Sheet(declarations) && Alike(marks, Inks(style, es))
    ensures var r, shapes := PutAll(BLANK, marks), ShapesOf(Inks(style, es));
            && (r.Ok? <==> Unspoilt(declarations, style.paint, es) && |shapes| <= 400)
            && (r.Ok? ==> r.value.shapes == shapes)
            && (r.Err? ==> SpoiltBy(declarations, style.paint, es, r.error) || (r.error == TooManyShapes && |shapes| > 400))
  {
    forall error { InksRefused(style, declarations, es, error); }
    PutAllIff(BLANK, marks);
    PutAllError(BLANK, marks);
    ReadableIff(marks);
    assert [] + ShapesOf(marks) == ShapesOf(marks);
  }

  // ── Text and pictures ──────────────────────────────────────────────────

  /** A lettering element, or a picture, that nothing hides. */
  predicate Meets(n: Node, lettering: bool)
    decreases n, 0
  {
    if Hides(n.tag) then lettering && n.tag in {"text", "tspan", "textpath"}
    else (!lettering && n.tag == "image") || (n.Element? && MeetsAny(n.children, lettering))
  }

  predicate MeetsAny(ns: seq<Node>, lettering: bool)
    decreases ns, 1
  {
    ns != [] && (Meets(ns[0], lettering) || MeetsAny(ns[1..], lettering))
  }

  lemma LetteringIs(tag: string)
    ensures KindOf(tag).Lettering? <==> tag in {"text", "tspan", "textpath"}
    ensures KindOf(tag).Raster? <==> tag == "image"
  {
  }

  lemma {:induction false} MarksMeet(style: Style, n: Node, groups: seq<Group>, lettering: bool)
    ensures (if lettering then Letters else Photo) in Marks(style, n, groups) <==> Meets(n, lettering)
    decreases n, 0
  {
    KindsAre(n.tag);
    LetteringIs(n.tag);
    if n.Element? { MarksAllMeet(style, n.children, if KindOf(n.tag).Grouping? then groups + [Group(n.tag, n.attrs)] else groups, lettering); }
  }

  lemma {:induction false} MarksAllMeet(style: Style, ns: seq<Node>, groups: seq<Group>, lettering: bool)
    ensures (if lettering then Letters else Photo) in MarksAll(style, ns, groups) <==> MeetsAny(ns, lettering)
    decreases ns, 1
  {
    if ns != [] {
      MarksMeet(style, ns[0], groups, lettering);
      MarksAllMeet(style, ns[1..], groups, lettering);
    }
  }

  /** The flags behind the refusal of an empty drawing: text, or a picture, that nothing hides. */
  lemma FileFlags(style: Style, root: Attrs, children: seq<Node>)
    requires Scanned(style, root, children).Ok?
    ensures Scanned(style, root, children).value.sawText <==> MeetsAny(children, true)
    ensures Scanned(style, root, children).value.sawRaster <==> MeetsAny(children, false)
  {
    var g := Group("svg", root);
    ScanDrawsTheTree(style, root, children);
    MarksAllMeet(style, children, [g, g], true);
    MarksAllMeet(style, children, [g, g], false);
    PutAllIff(BLANK, MarksAll(style, children, [g, g]));
  }
}
