/**
 * What the artwork reader leaves out of a shape's surroundings. It lets groups
 * hand on paint and transforms; every other element around a shape, a link or a
 * switch, is transparent to it.
 */
module SvgInheritance {
  import opened Common
  import opened SvgArtwork

  predicate IsGroup(g: Group) {
    KindOf(g.tag).Grouping?
  }

  function GroupsOnly(path: seq<Group>): seq<Group> {
    if path == [] then []
    else if IsGroup(path[|path| - 1]) then GroupsOnly(path[..|path| - 1]) + [path[|path| - 1]]
    else GroupsOnly(path[..|path| - 1])
  }

  /** Of all the elements around a shape, root first, those the reader lets count. */
  function ReaderPath(path: seq<Group>): seq<Group> {
    path[..if path == [] then 0 else 1] + GroupsOnly(path)
  }

  /** Every enclosing element counts, a link or a switch like a group, and each once. */
  function WholePath(path: seq<Group>): seq<Group> {
    path
  }

  /** The marks of a tree when `view` says which of the enclosing elements count. */
  function Drawing(style: Style, view: seq<Group> -> seq<Group>, n: Node, path: seq<Group>): seq<Mark>
    decreases n, 1
  {
    match KindOf(n.tag)
    case Skipped => []
    case Grouping => DrawingInside(style, view, n, path)
    case Lettering => [Letters]
    case Raster => [Photo] + DrawingInside(style, view, n, path)
    case Drawn => Ink(style, n.tag, n.attrs, view(path)) + DrawingInside(style, view, n, path)
    case Transparent => DrawingInside(style, view, n, path)
  }

  function DrawingInside(style: Style, view: seq<Group> -> seq<Group>, n: Node, path: seq<Group>): seq<Mark>
    decreases n, 0
  {
    if n.Leaf? then [] else DrawingAll(style, view, n.children, path + [Group(n.tag, n.attrs)])
  }

  function DrawingAll(style: Style, view: seq<Group> -> seq<Group>, ns: seq<Node>, path: seq<Group>): seq<Mark>
    decreases ns, 2
  {
    if ns == [] then [] else Drawing(style, view, ns[0], path) + DrawingAll(style, view, ns[1..], path)
  }

  lemma ReaderPathGrows(path: seq<Group>, g: Group)
    requires path != []
    ensures ReaderPath(path + [g]) == if IsGroup(g) then ReaderPath(path) + [g] else ReaderPath(path)
  {
    assert (path + [g])[..|path|] == path;
    assert (path + [g])[..1] == path[..1];
  }

  /** The reader's drawing is the one in which only groups count and the root twice. */
  lemma {:induction false} ReaderDraws(style: Style, n: Node, path: seq<Group>)
    requires path != []
    ensures Drawing(style, ReaderPath, n, path) == Marks(style, n, ReaderPath(path))
    decreases n, 1
  {
    if n.Element? {
      ReaderPathGrows(path, Group(n.tag, n.attrs));
      ReaderDrawsAll(style, n.children, path + [Group(n.tag, n.attrs)]);
    }
  }

  lemma {:induction false} ReaderDrawsAll(style: Style, ns: seq<Node>, path: seq<Group>)
    requires path != []
    ensures DrawingAll(style, ReaderPath, ns, path) == MarksAll(style, ns, ReaderPath(path))
    decreases ns, 2
  {
    if ns != [] {
      ReaderDraws(style, ns[0], path);
      ReaderDrawsAll(style, ns[1..], path);
    }
  }

  /** A shape as drawn: the element and everything around it. */
  datatype Sight = Sight(tag: string, attrs: Attrs, path: seq<Group>)

  function Sights(n: Node, path: seq<Group>): seq<Sight>
    decreases n, 1
  {
    match KindOf(n.tag)
    case Skipped => []
    case Lettering => []
    case Drawn => [Sight(n.tag, n.attrs, path)] + SightsInside(n, path)
    case _ => SightsInside(n, path)
  }

  function SightsInside(n: Node, path: seq<Group>): seq<Sight>
    decreases n, 0
  {
    if n.Leaf? then [] else SightsAll(n.children, path + [Group(n.tag, n.attrs)])
  }

  function SightsAll(ns: seq<Node>, path: seq<Group>): seq<Sight>
    decreases ns, 2
  {
    if ns == [] then [] else Sights(ns[0], path) + SightsAll(ns[1..], path)
  }

  // ── What a shape takes from the elements around it ─────────────────────

  datatype Source = Itself | From(group: Group) | Default

  function Nearest(style: Style, path: seq<Group>): Source {
    if path == [] then Default
    else
      var g := path[|path| - 1];
      if OwnFill(style, g.tag, g.attrs).Some? then From(g) else Nearest(style, path[..|path| - 1])
  }

  /** It names a colour of its own, and not currentColor, which stands for what it inherits. */
  predicate PaintsItself(style: Style, s: Sight) {
    var own := OwnFill(style, s.tag, s.attrs);
    own.Some? && !style.paint(own.value).CurrentColor?
  }

  /** The element a shape has its paint from. */
  function PaintSource(style: Style, s: Sight, path: seq<Group>): Source {
    if PaintsItself(style, s) then Itself else Nearest(style, path)
  }

  /** The elements that move a shape, outermost first. */
  function Movers(path: seq<Group>): seq<Group> {
    if path == [] then []
    else if path[|path| - 1].attrs.transform != "" then Movers(path[..|path| - 1]) + [path[|path| - 1]]
    else Movers(path[..|path| - 1])
  }

  /** No element but groups moves the shape. */
  predicate NoStrayTransform(path: seq<Group>) {
    forall g :: g in path && !IsGroup(g) ==> g.attrs.transform == ""
  }

  /** Unless the shape paints itself, what paints it is a group or the default. */
  predicate NoStrayPaint(style: Style, s: Sight) {
    var source := PaintSource(style, s, s.path);
    source.From? ==> IsGroup(source.group)
  }

  lemma {:induction false} NearestGroups(style: Style, path: seq<Group>)
    ensures var source := Nearest(style, path);
            Nearest(style, GroupsOnly(path)) == source <==> (source.From? ==> IsGroup(source.group))
    ensures Nearest(style, GroupsOnly(path)).From? ==> IsGroup(Nearest(style, GroupsOnly(path)).group)
  {
    if path != [] {
      var front, g := path[..|path| - 1], path[|path| - 1];
      NearestGroups(style, front);
      if IsGroup(g) { assert (GroupsOnly(front) + [g])[..|GroupsOnly(front)|] == GroupsOnly(front); }
    }
  }

  lemma {:induction false} NearestDoubled(style: Style, g: Group, path: seq<Group>)
    requires path != [] && path[0] == g
    ensures Nearest(style, [g] + path) == Nearest(style, path)
  {
    var whole := [g] + path;
    assert whole[..|whole| - 1] == [g] + path[..|path| - 1];
    if |path| > 1 {
      NearestDoubled(style, g, path[..|path| - 1]);
    } else {
      assert path == [g] && whole == [g, g] && [g, g][..1] == [g] && [g][..0] == [];
    }
  }

  lemma {:induction false} GroupsOnlyFirst(path: seq<Group>)
    requires path != [] && IsGroup(path[0])
    ensures GroupsOnly(path) != [] && GroupsOnly(path)[0] == path[0]
  {
    if |path| > 1 { GroupsOnlyFirst(path[..|path| - 1]); }
  }

  lemma {:induction false} MoversOfGroups(path: seq<Group>)
    ensures NoStrayTransform(path) ==> Movers(GroupsOnly(path)) == Movers(path)
    ensures !NoStrayTransform(path) ==> |Movers(GroupsOnly(path))| < |Movers(path)|
  {
    if path != [] {
      var front, g := path[..|path| - 1], path[|path| - 1];
      MoversOfGroups(front);
      assert path == front + [g];
      if IsGroup(g) { assert (GroupsOnly(front) + [g])[..|GroupsOnly(front)|] == GroupsOnly(front); }
    }
  }

  lemma {:induction false} MoversOfDoubled(g: Group, path: seq<Group>)
    ensures Movers([g] + path) == (if g.attrs.transform != "" then [g] else []) + Movers(path)
  {
    if path == [] {
      assert [g] + path == [g] && [g][..0] == [];
    } else {
      assert ([g] + path)[..|path|] == [g] + path[..|path| - 1];
      MoversOfDoubled(g, path[..|path| - 1]);
    }
  }

  /**
   * A doubled root could only be made up for by as many stray transforms; but
   * what the reader lets count are groups, and a stray mover is none.
   */
  lemma {:induction false} MoversTell(path: seq<Group>)
    ensures |Movers(GroupsOnly(path))| <= |Movers(path)|
    ensures forall g :: g in Movers(GroupsOnly(path)) ==> IsGroup(g)
    ensures (forall g :: g in Movers(path) ==> IsGroup(g)) ==> NoStrayTransform(path)
  {
    if path != [] {
      var front, g := path[..|path| - 1], path[|path| - 1];
      MoversTell(front);
      assert path == front + [g];
      if IsGroup(g) { assert (GroupsOnly(front) + [g])[..|GroupsOnly(front)|] == GroupsOnly(front); }
    }
  }

  lemma SamePaintIff(style: Style, s: Sight)
    requires s.path != [] && IsGroup(s.path[0])
    ensures PaintSource(style, s, ReaderPath(s.path)) == PaintSource(style, s, s.path) <==> NoStrayPaint(style, s)
  {
    assert ReaderPath(s.path) == [s.path[0]] + GroupsOnly(s.path);
    GroupsOnlyFirst(s.path);
    NearestDoubled(style, s.path[0], GroupsOnly(s.path));
    NearestGroups(style, s.path);
  }

  /**
   * The reader takes a shape's paint and transforms from the elements it should
   * exactly when the root moves nothing, no enclosing element that is not a
   * group does, and none paints the shape.
   */
  lemma SameSourcesIff(style: Style, s: Sight)
    requires s.path != [] && IsGroup(s.path[0])
    ensures (PaintSource(style, s, ReaderPath(s.path)) == PaintSource(style, s, s.path) && Movers(ReaderPath(s.path)) == Movers(s.path))
            <==> s.path[0].attrs.transform == "" && NoStrayTransform(s.path) && NoStrayPaint(style, s)
  {
    var g, inner := s.path[0], GroupsOnly(s.path);
    assert ReaderPath(s.path) == [g] + inner;
    SamePaintIff(style, s);
    MoversOfDoubled(g, inner);
    MoversOfGroups(s.path);
    MoversTell(s.path);
    if Movers(ReaderPath(s.path)) == Movers(s.path) {
      forall m | m in Movers(s.path) ensures IsGroup(m) {
        if m != g { assert m in Movers(inner); }
      }
    }
  }

  lemma {:induction false} FillOfNearest(style: Style, path: seq<Group>)
    ensures var source := Nearest(style, path);
            if source.From? then OwnFill(style, source.group.tag, source.group.attrs) == Some(InheritedFill(style, path))
            else InheritedFill(style, path) == DEFAULT_FILL
  {
    if path != [] { FillOfNearest(style, path[..|path| - 1]); }
  }

  lemma {:induction false} JoinedOfMovers(path: seq<Group>)
    ensures Joined(Transforms(path)) == Joined(Transforms(Movers(path)))
  {
    if path != [] {
      var front, g := path[..|path| - 1], path[|path| - 1];
      JoinedOfMovers(front);
      assert Transforms(path) == Transforms(front) + [g.attrs.transform];
      JoinedAppend(Transforms(front), g.attrs.transform);
      JoinedPair(Joined(Transforms(front)), g.attrs.transform);
      if g.attrs.transform != "" {
        assert Transforms(Movers(path)) == Transforms(Movers(front)) + [g.attrs.transform];
        JoinedAppend(Transforms(Movers(front)), g.attrs.transform);
      }
    }
  }

  lemma PlaceOfMovers(p: seq<Group>, q: seq<Group>, own: string)
    requires Movers(p) == Movers(q)
    ensures Joined(Transforms(p) + [own]) == Joined(Transforms(q) + [own])
  {
    JoinedOfMovers(p);
    JoinedOfMovers(q);
    JoinedAppend(Transforms(p), own);
    JoinedAppend(Transforms(q), own);
  }

  /** The mark a shape leaves depends on its sources alone. */
  lemma InkOfSources(style: Style, s: Sight, p: seq<Group>, q: seq<Group>)
    requires PaintSource(style, s, p) == PaintSource(style, s, q) && Movers(p) == Movers(q)
    ensures Ink(style, s.tag, s.attrs, p) == Ink(style, s.tag, s.attrs, q)
  {
    FillOfNearest(style, p);
    FillOfNearest(style, q);
    PlaceOfMovers(p, q, s.attrs.transform);
    if !PaintsItself(style, s) {
      assert Nearest(style, p) == Nearest(style, q);
      assert InheritedFill(style, p) == InheritedFill(style, q);
    }
  }

  /** Everything around every shape is a group, or neither paints nor moves it, and the root does not move. */
  predicate NothingStray(style: Style, sights: seq<Sight>) {
    forall i :: 0 <= i < |sights| ==> Plain(style, sights[i])
  }

  predicate Plain(style: Style, s: Sight) {
    s.path != [] && s.path[0].attrs.transform == "" && NoStrayTransform(s.path) && NoStrayPaint(style, s)
  }

  lemma {:induction false} SightsRooted(n: Node, path: seq<Group>)
    requires path != []
    ensures forall s :: s in Sights(n, path) ==> s.path != [] && s.path[0] == path[0]
    decreases n, 1
  {
    if n.Element? { SightsAllRooted(n.children, path + [Group(n.tag, n.attrs)]); }
  }

  lemma {:induction false} SightsAllRooted(ns: seq<Node>, path: seq<Group>)
    requires path != []
    ensures forall s :: s in SightsAll(ns, path) ==> s.path != [] && s.path[0] == path[0]
    decreases ns, 2
  {
    if ns != [] {
      SightsRooted(ns[0], path);
      SightsAllRooted(ns[1..], path);
    }
  }

  /** The reader takes a shape's paint and transforms from the very elements that surround it. */
  predicate SameSources(style: Style, s: Sight) {
    PaintSource(style, s, ReaderPath(s.path)) == PaintSource(style, s, s.path) && Movers(ReaderPath(s.path)) == Movers(s.path)
  }

  /** It does so for every shape of a file exactly when nothing around any of them is stray. */
  lemma FileSourcesIff(style: Style, root: Attrs, children: seq<Node>)
    ensures var sights := SightsAll(children, [Group("svg", root)]);
            (forall i :: 0 <= i < |sights| ==> SameSources(style, sights[i])) <==> NothingStray(style, sights)
  {
    var sights := SightsAll(children, [Group("svg", root)]);
    SightsAllRooted(children, [Group("svg", root)]);
    forall i | 0 <= i < |sights| ensures SameSources(style, sights[i]) <==> Plain(style, sights[i]) {
      assert sights[i] in sights;
      SameSourcesIff(style, sights[i]);
    }
  }

  lemma {:induction false} PlainDrawings(style: Style, n: Node, path: seq<Group>)
    requires path != [] && IsGroup(path[0]) && NothingStray(style, Sights(n, path))
    ensures Drawing(style, ReaderPath, n, path) == Drawing(style, WholePath, n, path)
    decreases n, 1
  {
    if KindOf(n.tag).Drawn? {
      var s := Sight(n.tag, n.attrs, path);
      assert Sights(n, path)[0] == s && Plain(style, Sights(n, path)[0]);
      SameSourcesIff(style, s);
      InkOfSources(style, s, ReaderPath(path), path);
      forall i | 0 <= i < |SightsInside(n, path)| ensures Plain(style, SightsInside(n, path)[i]) {
        assert SightsInside(n, path)[i] == Sights(n, path)[i + 1];
      }
    }
    if n.Element? && !KindOf(n.tag).Skipped? && !KindOf(n.tag).Lettering? {
      assert NothingStray(style, SightsInside(n, path));
      assert SightsInside(n, path) == SightsAll(n.children, path + [Group(n.tag, n.attrs)]);
      PlainDrawingsAll(style, n.children, path + [Group(n.tag, n.attrs)]);
    }
  }

  lemma {:induction false} PlainDrawingsAll(style: Style, ns: seq<Node>, path: seq<Group>)
    requires path != [] && IsGroup(path[0]) && NothingStray(style, SightsAll(ns, path))
    ensures DrawingAll(style, ReaderPath, ns, path) == DrawingAll(style, WholePath, ns, path)
    decreases ns, 2
  {
    if ns != [] {
      var first, rest := Sights(ns[0], path), SightsAll(ns[1..], path);
      assert SightsAll(ns, path) == first + rest;
      forall i | 0 <= i < |first| ensures Plain(style, first[i]) { assert first[i] == (first + rest)[i]; }
      forall i | 0 <= i < |rest| ensures Plain(style, rest[i]) { assert rest[i] == (first + rest)[|first| + i]; }
      PlainDrawings(style, ns[0], path);
      PlainDrawingsAll(style, ns[1..], path);
    }
  }

  /**
   * The scan agrees with the drawing in which every enclosing element hands on
   * its paint and its transform, once, on every file where the root does not
   * move and no shape is painted or moved by an element that is not a group.
   */
  lemma ScanHandsDown(style: Style, root: Attrs, children: seq<Node>)
    requires NothingStray(style, SightsAll(children, [Group("svg", root)]))
    ensures Scanned(style, root, children) == PutAll(BLANK, DrawingAll(style, WholePath, children, [Group("svg", root)]))
  {
    var g := Group("svg", root);
    ScanDrawsTheTree(style, root, children);
    RootSeenTwice(root);
    ReaderDrawsAll(style, children, [g]);
    PlainDrawingsAll(style, children, [g]);
  }

  lemma Kinds()
    ensures KindOf("path").Drawn? && KindOf("a").Transparent? && KindOf("svg").Grouping?
  {
  }

  lemma RootSeenTwice(root: Attrs)
    ensures IsGroup(Group("svg", root))
    ensures ReaderPath([Group("svg", root)]) == [Group("svg", root), Group("svg", root)]
  {
    var g := Group("svg", root);
    Kinds();
    assert [g][..0] == [] && [g][..1] == [g] && [g] + [g] == [g, g];
    assert GroupsOnly([g]) == GroupsOnly([]) + [g];
  }

  // ── How a stray transform shows ────────────────────────────────────────

  lemma {:induction false} JoinedOfGroups(path: seq<Group>)
    ensures NoStrayTransform(path) ==> Joined(Transforms(GroupsOnly(path))) == Joined(Transforms(path))
    ensures !NoStrayTransform(path) ==> |Joined(Transforms(GroupsOnly(path)))| < |Joined(Transforms(path))|
  {
    if path != [] {
      var front, g := path[..|path| - 1], path[|path| - 1];
      var t := g.attrs.transform;
      JoinedOfGroups(front);
      assert path == front + [g];
      assert Transforms(path) == Transforms(front) + [t];
      JoinedAppend(Transforms(front), t);
      JoinedPair(Joined(Transforms(front)), t);
      if IsGroup(g) {
        assert Transforms(GroupsOnly(path)) == Transforms(GroupsOnly(front)) + [t];
        JoinedAppend(Transforms(GroupsOnly(front)), t);
        JoinedPair(Joined(Transforms(GroupsOnly(front))), t);
      }
    }
  }

  /** Under a root that does not move, a shape is placed right exactly when no other element than groups moves it, or its transform is too long to be carried either way. */
  lemma PlacementIff(path: seq<Group>, own: string)
    requires path != [] && IsGroup(path[0]) && path[0].attrs.transform == ""
    ensures var read, whole := Shown(Joined(Transforms(ReaderPath(path)) + [own])), Shown(Joined(Transforms(path) + [own]));
            read == whole <==> NoStrayTransform(path) || (read.None? && whole.None?)
  {
    var g, inner := path[0], GroupsOnly(path);
    assert Transforms(ReaderPath(path)) == [""] + Transforms(inner);
    assert ([""] + Transforms(inner))[1..] == Transforms(inner);
    JoinedOfGroups(path);
    JoinedAppend(Transforms(ReaderPath(path)), own);
    JoinedAppend(Transforms(path), own);
    JoinedPair(Joined(Transforms(inner)), own);
    JoinedPair(Joined(Transforms(path)), own);
  }

  // Two drawings that differ in transforms only.

  predicate MarkMoved(a: Mark, b: Mark) {
    if a.Inked? then b.Inked? && a.shape.d == b.shape.d && a.shape.fill == b.shape.fill else a == b
  }

  predicate AllMoved(a: seq<Mark>, b: seq<Mark>) {
    |a| == |b| && forall i :: 0 <= i < |a| ==> MarkMoved(a[i], b[i])
  }

  predicate InkSame(style: Style, s: Sight) {
    Ink(style, s.tag, s.attrs, ReaderPath(s.path)) == Ink(style, s.tag, s.attrs, s.path)
  }

  predicate PaintedRight(style: Style, s: Sight) {
    s.path != [] && s.path[0].attrs.transform == "" && IsGroup(s.path[0]) && NoStrayPaint(style, s)
  }

  predicate CarriesNone(s: Sight, path: seq<Group>) {
    Shown(Joined(Transforms(path) + [s.attrs.transform])).None?
  }

  predicate LeavesShape(style: Style, s: Sight) {
    var marks := Ink(style, s.tag, s.attrs, s.path);
    marks != [] && marks[0].Inked?
  }

  /** A shape painted right shows the same exactly when it is not drawn at all, no stray element moves it, or its transform is carried in neither. */
  lemma InkSameIff(style: Style, s: Sight)
    requires PaintedRight(style, s)
    ensures AllMoved(Ink(style, s.tag, s.attrs, ReaderPath(s.path)), Ink(style, s.tag, s.attrs, s.path))
    ensures InkSame(style, s) <==>
              || !LeavesShape(style, s) || NoStrayTransform(s.path)
              || (CarriesNone(s, ReaderPath(s.path)) && CarriesNone(s, s.path))
  {
    SamePaintIff(style, s);
    FillOfNearest(style, ReaderPath(s.path));
    FillOfNearest(style, s.path);
    PlacementIff(s.path, s.attrs.transform);
    if !PaintsItself(style, s) {
      assert InheritedFill(style, ReaderPath(s.path)) == InheritedFill(style, s.path);
    }
  }

  lemma ConcatenationsEqual<T>(a: seq<T>, b: seq<T>, c: seq<T>, d: seq<T>)
    requires |a| == |c| && |b| == |d|
    ensures a + b == c + d <==> a == c && b == d
  {
    if a + b == c + d {
      assert a == (a + b)[..|a|] && c == (c + d)[..|c|];
      assert b == (a + b)[|a|..] && d == (c + d)[|c|..];
    }
  }

  predicate AllPaintedRight(style: Style, sights: seq<Sight>) {
    forall i :: 0 <= i < |sights| ==> PaintedRight(style, sights[i])
  }

  predicate AllInkSame(style: Style, sights: seq<Sight>) {
    forall i :: 0 <= i < |sights| ==> InkSame(style, sights[i])
  }

  lemma AllOfConcatenation(style: Style, a: seq<Sight>, b: seq<Sight>)
    ensures AllPaintedRight(style, a + b) <==> AllPaintedRight(style, a) && AllPaintedRight(style, b)
    ensures AllInkSame(style, a + b) <==> AllInkSame(style, a) && AllInkSame(style, b)
  {
    forall i | 0 <= i < |a| ensures (a + b)[i] == a[i] {}
    forall i | 0 <= i < |b| ensures (a + b)[|a| + i] == b[i] {}
    if AllPaintedRight(style, a + b) {
      forall i | 0 <= i < |a| ensures PaintedRight(style, a[i]) { assert PaintedRight(style, (a + b)[i]); }
      forall i | 0 <= i < |b| ensures PaintedRight(style, b[i]) { assert PaintedRight(style, (a + b)[|a| + i]); }
    }
    if AllInkSame(style, a + b) {
      forall i | 0 <= i < |a| ensures InkSame(style, a[i]) { assert InkSame(style, (a + b)[i]); }
      forall i | 0 <= i < |b| ensures InkSame(style, b[i]) { assert InkSame(style, (a + b)[|a| + i]); }
    }
  }

  lemma InkMoved(style: Style, tag: string, attrs: Attrs, path: seq<Group>)
    requires path != [] && AllPaintedRight(style, [Sight(tag, attrs, path)])
    ensures AllMoved(Ink(style, tag, attrs, ReaderPath(path)), Ink(style, tag, attrs, path))
    ensures Ink(style, tag, attrs, ReaderPath(path)) == Ink(style, tag, attrs, path) <==> AllInkSame(style, [Sight(tag, attrs, path)])
  {
    var s := Sight(tag, attrs, path);
    assert PaintedRight(style, [s][0]);
    InkSameIff(style, s);
    assert AllInkSame(style, [s]) <==> InkSame(style, [s][0]);
  }

  lemma {:induction false} DrawingsMoved(style: Style, n: Node, path: seq<Group>)
    requires path != [] && AllPaintedRight(style, Sights(n, path))
    ensures AllMoved(Drawing(style, ReaderPath, n, path), Drawing(style, WholePath, n, path))
    ensures Drawing(style, ReaderPath, n, path) == Drawing(style, WholePath, n, path) <==> AllInkSame(style, Sights(n, path))
    decreases n, 1
  {
    match KindOf(n.tag)
    case Skipped =>
    case Lettering =>
    case Drawn =>
      AllOfConcatenation(style, [Sight(n.tag, n.attrs, path)], SightsInside(n, path));
      InkMoved(style, n.tag, n.attrs, path);
      InsideMoved(style, n, path);
      ConcatenationsEqual(Ink(style, n.tag, n.attrs, ReaderPath(path)), DrawingInside(style, ReaderPath, n, path),
                          Ink(style, n.tag, n.attrs, path), DrawingInside(style, WholePath, n, path));
    case Raster =>
      InsideMoved(style, n, path);
      ConcatenationsEqual([Photo], DrawingInside(style, ReaderPath, n, path), [Photo], DrawingInside(style, WholePath, n, path));
    case Grouping => InsideMoved(style, n, path);
    case Transparent => InsideMoved(style, n, path);
  }

  lemma {:induction false} InsideMoved(style: Style, n: Node, path: seq<Group>)
    requires path != [] && AllPaintedRight(style, SightsInside(n, path))
    ensures AllMoved(DrawingInside(style, ReaderPath, n, path), DrawingInside(style, WholePath, n, path))
    ensures DrawingInside(style, ReaderPath, n, path) == DrawingInside(style, WholePath, n, path)
            <==> AllInkSame(style, SightsInside(n, path))
    decreases n, 0
  {
    if n.Element? { AllDrawingsMoved(style, n.children, path + [Group(n.tag, n.attrs)]); }
  }

  lemma {:induction false} AllDrawingsMoved(style: Style, ns: seq<Node>, path: seq<Group>)
    requires path != [] && AllPaintedRight(style, SightsAll(ns, path))
    ensures AllMoved(DrawingAll(style, ReaderPath, ns, path), DrawingAll(style, WholePath, ns, path))
    ensures DrawingAll(style, ReaderPath, ns, path) == DrawingAll(style, WholePath, ns, path) <==> AllInkSame(style, SightsAll(ns, path))
    decreases ns, 2
  {
    if ns != [] {
      AllOfConcatenation(style, Sights(ns[0], path), SightsAll(ns[1..], path));
      DrawingsMoved(style, ns[0], path);
      AllDrawingsMoved(style, ns[1..], path);
      ConcatenationsEqual(Drawing(style, ReaderPath, ns[0], path), DrawingAll(style, ReaderPath, ns[1..], path),
                          Drawing(style, WholePath, ns[0], path), DrawingAll(style, WholePath, ns[1..], path));
    }
  }

  predicate CanvasMoved(a: Canvas, b: Canvas) {
    a.sawText == b.sawText && a.sawRaster == b.sawRaster && |a.shapes| == |b.shapes|
  }

  /** Canvases tell drawings that differ in transforms apart exactly where the drawings do. */
  lemma {:induction false} PutAllMoved(a: Canvas, b: Canvas, m: seq<Mark>, n: seq<Mark>)
    requires CanvasMoved(a, b) && AllMoved(m, n)
    ensures var ra, rb := PutAll(a, m), PutAll(b, n);
            if ra.Err? then rb == ra else rb.Ok? && (ra == rb <==> a == b && m == n)
    decreases m
  {
    if m != [] {
      assert MarkMoved(m[0], n[0]);
      forall i | 0 <= i < |m| - 1 ensures MarkMoved(m[1..][i], n[1..][i]) { assert MarkMoved(m[i + 1], n[i + 1]); }
      assert m == [m[0]] + m[1..] && n == [n[0]] + n[1..];
      var ra, rb := Put(a, m[0]), Put(b, n[0]);
      if ra.Ok? {
        PutMoved(a, b, m[0], n[0]);
        PutAllMoved(ra.value, rb.value, m[1..], n[1..]);
      }
    }
  }

  lemma PutMoved(a: Canvas, b: Canvas, m: Mark, n: Mark)
    requires CanvasMoved(a, b) && MarkMoved(m, n) && Put(a, m).Ok?
    ensures Put(b, n).Ok? && CanvasMoved(Put(a, m).value, Put(b, n).value)
    ensures Put(a, m) == Put(b, n) <==> a == b && m == n
  {
    if m.Inked? {
      ConcatenationsEqual(a.shapes, [m.shape], b.shapes, [n.shape]);
      assert [m.shape] == [n.shape] <==> m.shape == n.shape by { assert [m.shape][0] == m.shape && [n.shape][0] == n.shape; }
    }
  }

  /**
   * When every shape is painted right and the root does not move, the scan is
   * the drawing in which every enclosing element counts exactly when the file is
   * refused, or every shape drawn is moved by groups alone or carries no
   * transform in either.
   */
  lemma StrayTransformsShowIff(style: Style, root: Attrs, children: seq<Node>)
    requires AllPaintedRight(style, SightsAll(children, [Group("svg", root)]))
    ensures var sights := SightsAll(children, [Group("svg", root)]);
            var whole := PutAll(BLANK, DrawingAll(style, WholePath, children, [Group("svg", root)]));
            Scanned(style, root, children) == whole
            <==> (whole.Err? || forall i :: 0 <= i < |sights| ==>
                    || !LeavesShape(style, sights[i]) || NoStrayTransform(sights[i].path)
                    || (CarriesNone(sights[i], ReaderPath(sights[i].path)) && CarriesNone(sights[i], sights[i].path)))
  {
    var g := Group("svg", root);
    var sights := SightsAll(children, [g]);
    ScanDrawsTheTree(style, root, children);
    RootSeenTwice(root);
    ReaderDrawsAll(style, children, [g]);
    AllDrawingsMoved(style, children, [g]);
    PutAllMoved(BLANK, BLANK, DrawingAll(style, ReaderPath, children, [g]), DrawingAll(style, WholePath, children, [g]));
    forall i | 0 <= i < |sights|
      ensures InkSame(style, sights[i]) <==>
                || !LeavesShape(style, sights[i]) || NoStrayTransform(sights[i].path)
                || (CarriesNone(sights[i], ReaderPath(sights[i].path)) && CarriesNone(sights[i], sights[i].path))
    {
      InkSameIff(style, sights[i]);
    }
  }

  // ── Small files ────────────────────────────────────────────────────────

  /** No stylesheet, and every paint a colour. */
  function Colours(): Style {
    Style([], (value: string) => Solid(value))
  }

  const BARE := Attrs(None, None, None, {}, "", NoArea)

  const DISC := Leaf("path", BARE.(geometry := Outline("M0 0Z")))

  /** A black disc, placed as given. */
  function Disc(transform: Option<string>): Result<Canvas, SvgError> {
    Ok(Canvas([Shape("M0 0Z", DEFAULT_FILL, transform)], false, false))
  }

  lemma DiscInk(path: seq<Group>)
    requires forall g :: g in path ==> OwnFill(Colours(), g.tag, g.attrs).None?
    ensures Ink(Colours(), "path", DISC.attrs, path) == [Inked(Shape("M0 0Z", DEFAULT_FILL, Shown(Joined(Transforms(path)))))]
  {
    PaintlessFill(path);
    JoinedAppend(Transforms(path), "");
    JoinedPair(Joined(Transforms(path)), "");
    assert OwnFill(Colours(), "path", DISC.attrs).None?;
  }

  lemma {:induction false} PaintlessFill(path: seq<Group>)
    requires forall g :: g in path ==> OwnFill(Colours(), g.tag, g.attrs).None?
    ensures InheritedFill(Colours(), path) == DEFAULT_FILL
  {
    if path != [] { PaintlessFill(path[..|path| - 1]); }
  }

  lemma DiscMarks(path: seq<Group>, view: seq<Group> -> seq<Group>)
    ensures MarksAll(Colours(), [DISC], path) == Ink(Colours(), "path", DISC.attrs, path)
    ensures DrawingAll(Colours(), view, [DISC], path) == Ink(Colours(), "path", DISC.attrs, view(path))
    ensures SightsAll([DISC], path) == [Sight("path", DISC.attrs, path)]
  {
    Kinds();
    assert [DISC][1..] == [];
  }

  lemma LinkMarks(a: Attrs, path: seq<Group>, view: seq<Group> -> seq<Group>)
    ensures MarksAll(Colours(), [Element("a", a, [DISC])], path) == Ink(Colours(), "path", DISC.attrs, path)
    ensures DrawingAll(Colours(), view, [Element("a", a, [DISC])], path) == Ink(Colours(), "path", DISC.attrs, view(path + [Group("a", a)]))
    ensures SightsAll([Element("a", a, [DISC])], path) == [Sight("path", DISC.attrs, path + [Group("a", a)])]
  {
    var link := Element("a", a, [DISC]);
    Kinds();
    DiscMarks(path, view);
    DiscMarks(path + [Group("a", a)], view);
    assert [link][1..] == [];
    assert Marks(Colours(), link, path) == MarksAll(Colours(), [DISC], path);
    assert Drawing(Colours(), view, link, path) == DrawingAll(Colours(), view, [DISC], path + [Group("a", a)]);
    assert Sights(link, path) == SightsAll([DISC], path + [Group("a", a)]);
  }

  lemma OneMark(shape: Shape)
    ensures PutAll(BLANK, [Inked(shape)]) == Ok(Canvas([shape], false, false))
  {
    assert [Inked(shape)][1..] == [] && [] + [shape] == [shape];
  }

  const TWICE := "scale(2)"

  /** A disc under a root that is scaled: the reader scales it twice, and SVG once. */
  lemma ScaledRoot()
    ensures Scanned(Colours(), BARE.(transform := TWICE), [DISC]) == Disc(Some(TWICE + " " + TWICE))
    ensures PutAll(BLANK, DrawingAll(Colours(), WholePath, [DISC], [Group("svg", BARE.(transform := TWICE))]))
         == Disc(Some(TWICE))
  {
    var g := Group("svg", BARE.(transform := TWICE));
    ScanDrawsTheTree(Colours(), g.attrs, [DISC]);
    DiscMarks([g, g], WholePath);
    DiscInk([g, g]);
    assert Transforms([g, g]) == [TWICE, TWICE];
    JoinedPair(TWICE, TWICE);
    OneMark(Shape("M0 0Z", DEFAULT_FILL, Some(TWICE + " " + TWICE)));
    ScaledRootOnce();
  }

  lemma ScaledRootOnce()
    ensures PutAll(BLANK, DrawingAll(Colours(), WholePath, [DISC], [Group("svg", BARE.(transform := TWICE))]))
         == Disc(Some(TWICE))
  {
    var g := Group("svg", BARE.(transform := TWICE));
    DiscMarks([g], WholePath);
    DiscInk([g]);
    assert Transforms([g]) == [TWICE] && [TWICE][1..] == [];
    OneMark(Shape("M0 0Z", DEFAULT_FILL, Some(TWICE)));
  }

  /** A disc inside a link that is moved: the reader leaves it where it was. */
  lemma MovedLink()
    ensures var link := Element("a", BARE.(transform := "scale(3)"), [DISC]);
            && Scanned(Colours(), BARE, [link]) == Disc(None)
            && PutAll(BLANK, DrawingAll(Colours(), WholePath, [link], [Group("svg", BARE)])) == Disc(Some("scale(3)"))
  {
    var a := BARE.(transform := "scale(3)");
    var link := Element("a", a, [DISC]);
    var g, l := Group("svg", BARE), Group("a", a);
    ScanDrawsTheTree(Colours(), BARE, [link]);
    LinkMarks(link.attrs, [g, g], WholePath);
    LinkMarks(link.attrs, [g], WholePath);
    assert [g] + [l] == [g, l];
    DiscInk([g, g]);
    DiscInk([g, l]);
    assert Transforms([g, g]) == ["", ""] && Transforms([g, l]) == ["", "scale(3)"];
    JoinedPair("", "");
    JoinedPair("", "scale(3)");
    OneMark(Shape("M0 0Z", DEFAULT_FILL, None));
    OneMark(Shape("M0 0Z", DEFAULT_FILL, Some("scale(3)")));
  }

  /** Two faults can hide each other: a doubled root and a dropped link with the same transform give the right string from the wrong elements. */
  lemma FaultsCancel()
    ensures var t := BARE.(transform := "scale(2)");
            var link := Element("a", t, [DISC]);
            && Scanned(Colours(), t, [link]) == PutAll(BLANK, DrawingAll(Colours(), WholePath, [link], [Group("svg", t)]))
            && !NothingStray(Colours(), SightsAll([link], [Group("svg", t)]))
  {
    var t := BARE.(transform := "scale(2)");
    var link := Element("a", t, [DISC]);
    var g, l := Group("svg", t), Group("a", t);
    ScanDrawsTheTree(Colours(), t, [link]);
    LinkMarks(link.attrs, [g, g], WholePath);
    LinkMarks(link.attrs, [g], WholePath);
    assert [g] + [l] == [g, l];
    DiscInk([g, g]);
    DiscInk([g, l]);
    assert Transforms([g, g]) == Transforms([g, l]);
    assert !Plain(Colours(), SightsAll([link], [g])[0]);
  }
}
