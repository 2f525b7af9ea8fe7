/**
 * The artwork reader of src/personalization/svg-artwork.ts: a loop over tags
 * with a paint stack and a skip counter, proved to draw what the element tree
 * means. Raw text is tokenised elsewhere: the model starts from tags and the
 * attribute values the loop reads.
 */
module SvgArtwork {
  import opened Common

  // ── Tags, trees, drawings ──────────────────────────────────────────────

  /** What the geometry of one element amounts to: an outline, nothing to fill, or unreadable path data. */
  datatype Geometry = Outline(d: string) | NoArea | BadData

  /** The attributes the loop reads: `styleFill` is the fill of the style attribute, `transform` is empty when unreadable. */
  datatype Attrs = Attrs(
    styleFill: Option<string>, fill: Option<string>, id: Option<string>, classes: set<string>,
    transform: string, geometry: Geometry)

  datatype Token = OpenTag(tag: string, attrs: Attrs, selfClosing: bool) | CloseTag(tag: string)

  datatype Node = Element(tag: string, attrs: Attrs, children: seq<Node>) | Leaf(tag: string, attrs: Attrs)

  datatype Shape = Shape(d: string, fill: string, transform: Option<string>)

  datatype SvgError = GradientPaint | UnreadableColour | UnreadablePath | TooManyShapes | StackUnderflow

  datatype Canvas = Canvas(shapes: seq<Shape>, sawText: bool, sawRaster: bool)

  const BLANK := Canvas([], false, false)

  const DEFAULT_FILL := "#000000"

  const MAX_SHAPES := 400

  const MAX_TRANSFORM := 400

  datatype Kind = Skipped | Grouping | Lettering | Raster | Drawn | Transparent

  const SKIPPED_SUBTREES := {
    "defs", "clippath", "mask", "marker", "pattern", "symbol", "title", "desc", "metadata", "style", "filter",
    "lineargradient", "radialgradient"
  }

  function KindOf(tag: string): Kind {
    if tag in SKIPPED_SUBTREES then Skipped
    else if tag in {"g", "svg"} then Grouping
    else if tag in {"text", "tspan", "textpath"} then Lettering
    else if tag == "image" then Raster
    else if tag in {"path", "rect", "circle", "ellipse", "polygon", "polyline"} then Drawn
    else Transparent
  }

  /** The tags a serialiser writes for a tree. */
  function Flatten(n: Node): seq<Token> {
    match n
    case Leaf(tag, attrs) => [OpenTag(tag, attrs, true)]
    case Element(tag, attrs, children) => [OpenTag(tag, attrs, false)] + FlattenAll(children) + [CloseTag(tag)]
  }

  function FlattenAll(ns: seq<Node>): seq<Token> {
    if ns == [] then [] else Flatten(ns[0]) + FlattenAll(ns[1..])
  }

  // ── The stylesheet ─────────────────────────────────────────────────────

  datatype Selector = ById(name: string) | ByClass(name: string) | ByTag(name: string) | Unsupported

  datatype Declaration = Declaration(selectors: seq<Selector>, fill: Option<string>)

  datatype Rule = Rule(selector: Selector, fill: string, spec: nat, order: nat)

  function Specificity(s: Selector): nat {
    match s
    case ById(_) => 3
    case ByClass(_) => 2
    case ByTag(_) => 1
    case Unsupported => 0
  }

  function WithSelectors(rules: seq<Rule>, selectors: seq<Selector>, fill: string): seq<Rule> {
    if selectors == [] then rules
    else
      var before := WithSelectors(rules, selectors[..|selectors| - 1], fill);
      var s := selectors[|selectors| - 1];
      if s.Unsupported? then before else before + [Rule(s, fill, Specificity(s), |before|)]
  }

  function Sheet(declarations: seq<Declaration>): seq<Rule> {
    if declarations == [] then []
    else
      var before, d := Sheet(declarations[..|declarations| - 1]), declarations[|declarations| - 1];
      if d.fill.None? || d.fill.value == "" then before else WithSelectors(before, d.selectors, d.fill.value)
  }

  method ReadStylesheet(declarations: seq<Declaration>) returns (rules: seq<Rule>)
    ensures rules == Sheet(declarations)
    ensures forall i :: 0 <= i < |rules| ==> rules[i].order == i && rules[i].spec == Specificity(rules[i].selector)
  {
    rules := [];
    var order := 0;
    for n := 0 to |declarations|
      invariant rules == Sheet(declarations[..n]) && order == |rules|
      invariant forall i :: 0 <= i < |rules| ==> rules[i].order == i && rules[i].spec == Specificity(rules[i].selector)
    {
      var d := declarations[n];
      assert declarations[..n + 1][..n] == declarations[..n];
      if d.fill.Some? && d.fill.value != "" {
        var before := rules;
        for k := 0 to |d.selectors|
          invariant rules == WithSelectors(before, d.selectors[..k], d.fill.value) && order == |rules|
          invariant forall i :: 0 <= i < |rules| ==> rules[i].order == i && rules[i].spec == Specificity(rules[i].selector)
        {
          var s := d.selectors[k];
          assert d.selectors[..k + 1][..k] == d.selectors[..k];
          if !s.Unsupported? {
            rules := rules + [Rule(s, d.fill.value, Specificity(s), order)];
            order := order + 1;
          }
        }
        assert d.selectors[..|d.selectors|] == d.selectors;
      }
    }
    assert declarations[..|declarations|] == declarations;
  }

  predicate Hits(r: Rule, tag: string, a: Attrs) {
    match r.selector
    case ById(name) => a.id == Some(name)
    case ByClass(name) => name in a.classes
    case ByTag(name) => name == tag
    case Unsupported => false
  }

  predicate Beats(r: Rule, q: Rule) {
    r.spec > q.spec || (r.spec == q.spec && r.order > q.order)
  }

  /** The hit that no other hit beats. */
  function Best(rules: seq<Rule>, tag: string, a: Attrs): (best: Option<Rule>)
    ensures best.None? ==> forall r :: r in rules ==> !Hits(r, tag, a)
    ensures best.Some? ==> best.value in rules && Hits(best.value, tag, a)
    ensures best.Some? ==> forall r :: r in rules && Hits(r, tag, a) ==> !Beats(r, best.value)
  {
    if rules == [] then None
    else
      var before, r := Best(rules[..|rules| - 1], tag, a), rules[|rules| - 1];
      assert rules == rules[..|rules| - 1] + [r];
      if Hits(r, tag, a) && (before.None? || Beats(r, before.value)) then Some(r) else before
  }

  function CssFillOf(rules: seq<Rule>, tag: string, a: Attrs): Option<string> {
    var best := Best(rules, tag, a);
    if best.None? then None else Some(best.value.fill)
  }

  /** In a sheet as read, the fill is that of the most specific matching rule, the latest of equals. */
  lemma CssFillIsTheCascade(rules: seq<Rule>, tag: string, a: Attrs, i: nat)
    requires forall k :: 0 <= k < |rules| ==> rules[k].order == k
    requires i < |rules| && Hits(rules[i], tag, a)
    requires forall k :: 0 <= k < |rules| && Hits(rules[k], tag, a) ==>
               rules[k].spec < rules[i].spec || (rules[k].spec == rules[i].spec && k <= i)
    ensures CssFillOf(rules, tag, a) == Some(rules[i].fill)
  {
    var best := Best(rules, tag, a);
    var k :| 0 <= k < |rules| && rules[k] == best.value;
    assert !Beats(rules[i], rules[k]);
  }

  method CssFill(rules: seq<Rule>, tag: string, a: Attrs) returns (fill: Option<string>)
    ensures fill == CssFillOf(rules, tag, a)
  {
    if |rules| == 0 { return None; }
    var best: Option<Rule> := None;
    for n := 0 to |rules|
      invariant best == Best(rules[..n], tag, a)
    {
      assert rules[..n + 1][..n] == rules[..n];
      var r := rules[n];
      if Hits(r, tag, a) && (best.None? || Beats(r, best.value)) { best := Some(r); }
    }
    assert rules[..|rules|] == rules;
    return if best.None? then None else Some(best.value.fill);
  }

  // ── Paint and transforms ───────────────────────────────────────────────

  /** What a paint value reads as; the colour syntax itself is a parameter. */
  datatype Paint = NoPaint | CurrentColor | Solid(hex: string) | Gradient | Unreadable

  /** What is fixed during one reading of a file. */
  datatype Style = Style(sheet: seq<Rule>, paint: string -> Paint)

  function ParseFill(paint: string -> Paint, raw: Option<string>, inherited: string): Result<Option<string>, SvgError> {
    match paint(if raw.Some? then raw.value else inherited)
    case NoPaint => Ok(None)
    case CurrentColor => Ok(Some(inherited))
    case Solid(hex) => Ok(Some(hex))
    case Gradient => Err(GradientPaint)
    case Unreadable => Err(UnreadableColour)
  }

  function Or(a: Option<string>, b: Option<string>): Option<string> {
    if a.Some? then a else b
  }

  /** The paint an element declares itself: its style, then the sheet, then its attribute. */
  function OwnFill(style: Style, tag: string, a: Attrs): Option<string> {
    Or(a.styleFill, Or(CssFillOf(style.sheet, tag, a), a.fill))
  }

  /** The non-empty parts, separated by spaces. */
  function Joined(parts: seq<string>): string {
    if parts == [] then ""
    else
      var rest := Joined(parts[1..]);
      if parts[0] == "" then rest else if rest == "" then parts[0] else parts[0] + " " + rest
  }

  function Shown(joined: string): Option<string> {
    if joined == "" || |joined| > MAX_TRANSFORM then None else Some(joined)
  }

  /** Joining piece by piece and joining at once agree. */
  lemma {:induction false} JoinedAppend(parts: seq<string>, t: string)
    ensures Joined(parts + [t]) == Joined([Joined(parts), t])
  {
    if parts == [] {
      assert [] + [t] == [t];
      assert ["", t][1..] == [t];
    } else {
      assert (parts + [t])[1..] == parts[1..] + [t];
      JoinedAppend(parts[1..], t);
      JoinedPair(Joined(parts), t);
      JoinedPair(Joined(parts[1..]), t);
    }
  }

  lemma JoinedPair(a: string, b: string)
    ensures Joined([a, b]) == if a == "" then b else if b == "" then a else a + " " + b
  {
    assert [a, b][1..] == [b];
    assert [b][1..] == [];
    assert Joined([b]) == b;
  }

  // ── The meaning of a tree ──────────────────────────────────────────────

  datatype Group = Group(tag: string, attrs: Attrs)

  /** What the reader meets, in drawing order. */
  datatype Mark = Inked(shape: Shape) | Letters | Photo | Refused(error: SvgError)

  /** The paint of the nearest enclosing group that declares one. */
  function InheritedFill(style: Style, path: seq<Group>): string {
    if path == [] then DEFAULT_FILL
    else
      var g := path[|path| - 1];
      var own := OwnFill(style, g.tag, g.attrs);
      if own.Some? then own.value else InheritedFill(style, path[..|path| - 1])
  }

  function Transforms(path: seq<Group>): seq<string> {
    seq(|path|, i requires 0 <= i < |path| => path[i].attrs.transform)
  }

  /** One drawn element under the groups that enclose it, outermost first. */
  function Ink(style: Style, tag: string, a: Attrs, path: seq<Group>): seq<Mark> {
    match ParseFill(style.paint, OwnFill(style, tag, a), InheritedFill(style, path))
    case Err(e) => [Refused(e)]
    case Ok(fill) =>
      if fill.None? || fill.value == "" then []
      else match a.geometry
        case NoArea => []
        case BadData => [Refused(UnreadablePath)]
        case Outline(d) =>
          if d == "" then [] else [Inked(Shape(d, fill.value, Shown(Joined(Transforms(path) + [a.transform]))))]
  }

  /** Definitions and lettering hide their subtrees; the reader lets only groups pass paint and transforms on. */
  function Marks(style: Style, n: Node, path: seq<Group>): seq<Mark>
    decreases n, 1
  {
    match KindOf(n.tag)
    case Skipped => []
    case Grouping => MarksInside(style, n, path + [Group(n.tag, n.attrs)])
    case Lettering => [Letters]
    case Raster => [Photo] + MarksInside(style, n, path)
    case Drawn => Ink(style, n.tag, n.attrs, path) + MarksInside(style, n, path)
    case Transparent => MarksInside(style, n, path)
  }

  function MarksInside(style: Style, n: Node, path: seq<Group>): seq<Mark>
    decreases n, 0
  {
    if n.Leaf? then [] else MarksAll(style, n.children, path)
  }

  function MarksAll(style: Style, ns: seq<Node>, path: seq<Group>): seq<Mark>
    decreases ns, 2
  {
    if ns == [] then [] else Marks(style, ns[0], path) + MarksAll(style, ns[1..], path)
  }

  function Put(c: Canvas, m: Mark): Result<Canvas, SvgError> {
    match m
    case Inked(shape) => if |c.shapes| == MAX_SHAPES then Err(TooManyShapes) else Ok(c.(shapes := c.shapes + [shape]))
    case Letters => Ok(c.(sawText := true))
    case Photo => Ok(c.(sawRaster := true))
    case Refused(e) => Err(e)
  }

  /** The marks on a canvas, up to the first refusal or the shape that is one too many. */
  function PutAll(c: Canvas, marks: seq<Mark>): Result<Canvas, SvgError>
    decreases marks
  {
    if marks == [] then Ok(c)
    else
      var r := Put(c, marks[0]);
      if r.Err? then r else PutAll(r.value, marks[1..])
  }

  lemma {:induction false} PutAllAppend(c: Canvas, m: seq<Mark>, n: seq<Mark>)
    ensures var r := PutAll(c, m); PutAll(c, m + n) == if r.Err? then r else PutAll(r.value, n)
    decreases m
  {
    if m == [] {
      assert m + n == n;
    } else {
      assert (m + n)[1..] == m[1..] + n;
      var r := Put(c, m[0]);
      if r.Ok? { PutAllAppend(r.value, m[1..], n); }
    }
  }

  function ShapesOf(marks: seq<Mark>): seq<Shape> {
    if marks == [] then [] else (if marks[0].Inked? then [marks[0].shape] else []) + ShapesOf(marks[1..])
  }

  predicate Readable(marks: seq<Mark>) {
    forall i :: 0 <= i < |marks| ==> !marks[i].Refused?
  }

  /** A canvas is all or nothing: every shape in order, or an error when anything is refused or there are too many. */
  lemma {:induction false} PutAllIff(c: Canvas, marks: seq<Mark>)
    requires |c.shapes| <= MAX_SHAPES
    ensures PutAll(c, marks).Ok? <==> Readable(marks) && |c.shapes + ShapesOf(marks)| <= MAX_SHAPES
    ensures var r := PutAll(c, marks);
            r.Ok? ==>
              r.value == Canvas(c.shapes + ShapesOf(marks), c.sawText || Letters in marks, c.sawRaster || Photo in marks)
    decreases marks
  {
    if marks == [] {
      assert c.shapes + [] == c.shapes;
    } else {
      var r := Put(c, marks[0]);
      assert marks == [marks[0]] + marks[1..];
      assert Readable(marks) <==> !marks[0].Refused? && Readable(marks[1..]) by {
        if Readable(marks) { assert forall i :: 0 <= i < |marks| - 1 ==> marks[1..][i] == marks[i + 1]; }
      }
      if r.Ok? {
        PutAllIff(r.value, marks[1..]);
        assert r.value.shapes + ShapesOf(marks[1..]) == c.shapes + ShapesOf(marks);
      }
    }
  }

  // ── The loop ───────────────────────────────────────────────────────────

  datatype Entry = Entry(fill: string, transform: string)

  datatype State = State(stack: seq<Entry>, skipping: nat, canvas: Canvas)

  function Top(stack: seq<Entry>): Entry
    requires stack != []
  {
    stack[|stack| - 1]
  }

  function Pushed(style: Style, tag: string, a: Attrs, inherited: Entry): Entry {
    var own := OwnFill(style, tag, a);
    Entry(if own.Some? then own.value else inherited.fill, Joined([inherited.transform, a.transform]))
  }

  function DrawnShape(style: Style, tag: string, a: Attrs, inherited: Entry, c: Canvas): Result<Canvas, SvgError> {
    match ParseFill(style.paint, OwnFill(style, tag, a), inherited.fill)
    case Err(e) => Err(e)
    case Ok(fill) =>
      if fill.None? || fill.value == "" || a.geometry.NoArea? then Ok(c)
      else if a.geometry.BadData? then Err(UnreadablePath)
      else if a.geometry.d == "" then Ok(c)
      else
        var shapes := c.shapes + [Shape(a.geometry.d, fill.value, Shown(Joined([inherited.transform, a.transform])))];
        if |shapes| > MAX_SHAPES then Err(TooManyShapes) else Ok(c.(shapes := shapes))
  }

  function Opened(style: Style, s: State, tag: string, a: Attrs, selfClosing: bool): Result<State, SvgError> {
    var skip := if selfClosing then 0 else 1;
    if s.skipping > 0 then Ok(s.(skipping := s.skipping + skip))
    else match KindOf(tag)
      case Skipped => Ok(s.(skipping := skip))
      case Grouping =>
        if s.stack == [] then Err(StackUnderflow)
        else if selfClosing then Ok(s)
        else Ok(s.(stack := s.stack + [Pushed(style, tag, a, Top(s.stack))]))
      case Lettering => Ok(s.(canvas := s.canvas.(sawText := true), skipping := skip))
      case Raster => Ok(s.(canvas := s.canvas.(sawRaster := true)))
      case Drawn =>
        if s.stack == [] then Err(StackUnderflow)
        else
          var r := DrawnShape(style, tag, a, Top(s.stack), s.canvas);
          if r.Err? then Err(r.error) else Ok(s.(canvas := r.value))
      case Transparent => Ok(s)
  }

  function Closed(s: State, tag: string): State {
    if s.skipping > 0 then s.(skipping := s.skipping - 1)
    else if KindOf(tag).Grouping? && s.stack != [] then s.(stack := s.stack[..|s.stack| - 1])
    else s
  }

  function Stepped(style: Style, s: State, t: Token): Result<State, SvgError> {
    match t
    case CloseTag(tag) => Ok(Closed(s, tag))
    case OpenTag(tag, a, selfClosing) => Opened(style, s, tag, a, selfClosing)
  }

  function Run(style: Style, s: State, tokens: seq<Token>): Result<State, SvgError>
    decreases tokens
  {
    if tokens == [] then Ok(s)
    else
      var r := Stepped(style, s, tokens[0]);
      if r.Err? then r else Run(style, r.value, tokens[1..])
  }

  lemma RunCons(style: Style, s: State, t: Token, rest: seq<Token>)
    ensures Run(style, s, [t] + rest) == var r := Stepped(style, s, t); if r.Err? then r else Run(style, r.value, rest)
  {
    assert ([t] + rest)[1..] == rest;
  }

  /** The root seeds the stack before the loop starts. */
  function Seed(style: Style, root: Attrs): Entry {
    var own := OwnFill(style, "svg", root);
    Entry(if own.Some? then own.value else DEFAULT_FILL, root.transform)
  }

  /** Draws one shape element on the shapes so far. */
  method Draw(style: Style, tag: string, a: Attrs, inherited: Entry, c: Canvas) returns (result: Result<Canvas, SvgError>)
    ensures result == DrawnShape(style, tag, a, inherited, c)
  {
    var css := CssFill(style.sheet, tag, a);
    var fill := ParseFill(style.paint, Or(a.styleFill, Or(css, a.fill)), inherited.fill);
    if fill.Err? { return Err(fill.error); }
    if fill.value.None? || fill.value.value == "" { return Ok(c); }
    if a.geometry.NoArea? { return Ok(c); }
    if a.geometry.BadData? { return Err(UnreadablePath); }
    if a.geometry.d == "" { return Ok(c); }
    var shapes := c.shapes + [Shape(a.geometry.d, fill.value.value, Shown(Joined([inherited.transform, a.transform])))];
    if |shapes| > MAX_SHAPES { return Err(TooManyShapes); }
    return Ok(c.(shapes := shapes));
  }

  /** The scan of a whole file, as a loop over its tags. */
  method Scan(style: Style, root: Attrs, tokens: seq<Token>) returns (result: Result<Canvas, SvgError>)
    ensures var r := Run(style, State([Seed(style, root)], 0, BLANK), tokens);
            result == if r.Err? then Err(r.error) else Ok(r.value.canvas)
  {
    var css := CssFill(style.sheet, "svg", root);
    var own := Or(root.styleFill, Or(css, root.fill));
    var stack := [Entry(if own.Some? then own.value else DEFAULT_FILL, root.transform)];
    var skipping, canvas := 0, BLANK;
    ghost var whole := Run(style, State(stack, skipping, canvas), tokens);
    assert tokens[0..] == tokens;
    for n := 0 to |tokens|
      invariant skipping >= 0
      invariant whole == Run(style, State(stack, skipping, canvas), tokens[n..])
    {
      var t := tokens[n];
      ghost var step := Stepped(style, State(stack, skipping, canvas), t);
      assert tokens[n..] == [t] + tokens[n + 1..];
      RunCons(style, State(stack, skipping, canvas), t, tokens[n + 1..]);
      if t.CloseTag? {
        if skipping > 0 {
          skipping := skipping - 1;
        } else if t.tag in {"g", "svg"} && |stack| > 0 {
          stack := stack[..|stack| - 1];
        }
        assert step == Ok(State(stack, skipping, canvas));
        continue;
      }
      var tag, a := t.tag, t.attrs;
      if skipping > 0 {
        if !t.selfClosing { skipping := skipping + 1; }
      } else if tag in SKIPPED_SUBTREES {
        if !t.selfClosing { skipping := 1; }
      } else if tag in {"g", "svg"} {
        if |stack| == 0 { return Err(StackUnderflow); }
        var inherited := stack[|stack| - 1];
        css := CssFill(style.sheet, tag, a);
        own := Or(a.styleFill, Or(css, a.fill));
        var entry := Entry(if own.Some? then own.value else inherited.fill, Joined([inherited.transform, a.transform]));
        if !t.selfClosing { stack := stack + [entry]; }
      } else if tag in {"text", "tspan", "textpath"} {
        canvas := canvas.(sawText := true);
        if !t.selfClosing { skipping := 1; }
      } else if tag == "image" {
        canvas := canvas.(sawRaster := true);
      } else if tag in {"path", "rect", "circle", "ellipse", "polygon", "polyline"} {
        if |stack| == 0 { return Err(StackUnderflow); }
        var drawn := Draw(style, tag, a, stack[|stack| - 1], canvas);
        if drawn.Err? { return Err(drawn.error); }
        canvas := drawn.value;
      }
      assert step == Ok(State(stack, skipping, canvas));
    }
    return Ok(canvas);
  }

  // ── The loop draws the tree ────────────────────────────────────────────

  /** The stack under a list of enclosing groups. */
  function Stack(style: Style, path: seq<Group>): (stack: seq<Entry>)
    ensures |stack| == |path|
  {
    if path == [] then []
    else
      Stack(style, path[..|path| - 1]) + [Entry(InheritedFill(style, path), Joined(Transforms(path)))]
  }

  lemma StackPushed(style: Style, path: seq<Group>, g: Group)
    requires path != []
    ensures Stack(style, path + [g]) == Stack(style, path) + [Pushed(style, g.tag, g.attrs, Top(Stack(style, path)))]
  {
    assert (path + [g])[..|path|] == path;
    assert Transforms(path + [g]) == Transforms(path) + [g.attrs.transform];
    JoinedAppend(Transforms(path), g.attrs.transform);
  }

  lemma DrawnInks(style: Style, tag: string, a: Attrs, path: seq<Group>, c: Canvas)
    requires path != [] && |c.shapes| <= MAX_SHAPES
    ensures DrawnShape(style, tag, a, Top(Stack(style, path)), c) == PutAll(c, Ink(style, tag, a, path))
  {
    JoinedAppend(Transforms(path), a.transform);
    var marks := Ink(style, tag, a, path);
    if marks != [] { assert marks[1..] == []; }
  }

  lemma {:induction false} PutAllBounded(c: Canvas, marks: seq<Mark>)
    requires |c.shapes| <= MAX_SHAPES && PutAll(c, marks).Ok?
    ensures |PutAll(c, marks).value.shapes| <= MAX_SHAPES
    decreases marks
  {
    if marks != [] { PutAllBounded(Put(c, marks[0]).value, marks[1..]); }
  }

  /** The scan after some marks were met. */
  function Resumed(style: Style, stack: seq<Entry>, r: Result<Canvas, SvgError>, rest: seq<Token>): Result<State, SvgError> {
    if r.Err? then Err(r.error) else Run(style, State(stack, 0, r.value), rest)
  }

  /** While skipping, a whole subtree changes nothing: the counter comes back to where it was. */
  lemma {:induction false} SkipsNode(style: Style, s: State, n: Node, rest: seq<Token>)
    requires s.skipping > 0
    ensures Run(style, s, Flatten(n) + rest) == Run(style, s, rest)
    decreases n, 0
  {
    match n
    case Leaf(tag, attrs) => RunCons(style, s, OpenTag(tag, attrs, true), rest);
    case Element(tag, attrs, children) =>
      var close := [CloseTag(tag)] + rest;
      assert Flatten(n) + rest == [OpenTag(tag, attrs, false)] + (FlattenAll(children) + close);
      RunCons(style, s, OpenTag(tag, attrs, false), FlattenAll(children) + close);
      var deeper := s.(skipping := s.skipping + 1);
      SkipsAll(style, deeper, children, close);
      RunCons(style, deeper, CloseTag(tag), rest);
  }

  lemma {:induction false} SkipsAll(style: Style, s: State, ns: seq<Node>, rest: seq<Token>)
    requires s.skipping > 0
    ensures Run(style, s, FlattenAll(ns) + rest) == Run(style, s, rest)
    decreases ns, 1
  {
    if ns == [] {
      assert FlattenAll(ns) + rest == rest;
    } else {
      assert FlattenAll(ns) + rest == Flatten(ns[0]) + (FlattenAll(ns[1..]) + rest);
      SkipsNode(style, s, ns[0], FlattenAll(ns[1..]) + rest);
      SkipsAll(style, s, ns[1..], rest);
    }
  }

  /** Scanning the tags of a subtree puts exactly its marks on the canvas and leaves the stack as it was. */
  lemma {:induction false} ScansNode(style: Style, n: Node, path: seq<Group>, c: Canvas, rest: seq<Token>)
    requires path != [] && |c.shapes| <= MAX_SHAPES
    ensures Run(style, State(Stack(style, path), 0, c), Flatten(n) + rest)
         == Resumed(style, Stack(style, path), PutAll(c, Marks(style, n, path)), rest)
    decreases n, 1
  {
    match KindOf(n.tag)
    case Skipped => ScansHidden(style, n, path, c, rest);
    case Lettering => ScansHidden(style, n, path, c, rest);
    case Grouping => ScansGroup(style, n, path, c, rest);
    case Raster => ScansOpen(style, n, path, c, [Photo], rest);
    case Transparent =>
      assert [] + MarksInside(style, n, path) == MarksInside(style, n, path);
      ScansOpen(style, n, path, c, [], rest);
    case Drawn =>
      DrawnInks(style, n.tag, n.attrs, path, c);
      ScansOpen(style, n, path, c, Ink(style, n.tag, n.attrs, path), rest);
  }

  lemma ScansHidden(style: Style, n: Node, path: seq<Group>, c: Canvas, rest: seq<Token>)
    requires path != [] && (KindOf(n.tag).Skipped? || KindOf(n.tag).Lettering?)
    ensures Run(style, State(Stack(style, path), 0, c), Flatten(n) + rest)
         == Resumed(style, Stack(style, path), PutAll(c, Marks(style, n, path)), rest)
  {
    var s := State(Stack(style, path), 0, c);
    var c' := if KindOf(n.tag).Lettering? then c.(sawText := true) else c;
    assert PutAll(c, Marks(style, n, path)) == Ok(c') by { assert [Letters][1..] == []; }
    match n
    case Leaf(tag, attrs) => RunCons(style, s, OpenTag(tag, attrs, true), rest);
    case Element(tag, attrs, children) =>
      var close := [CloseTag(tag)] + rest;
      assert Flatten(n) + rest == [OpenTag(tag, attrs, false)] + (FlattenAll(children) + close);
      RunCons(style, s, OpenTag(tag, attrs, false), FlattenAll(children) + close);
      var hidden := State(Stack(style, path), 1, c');
      SkipsAll(style, hidden, children, close);
      RunCons(style, hidden, CloseTag(tag), rest);
  }

  lemma {:induction false} ScansGroup(style: Style, n: Node, path: seq<Group>, c: Canvas, rest: seq<Token>)
    requires path != [] && |c.shapes| <= MAX_SHAPES && KindOf(n.tag).Grouping?
    ensures Run(style, State(Stack(style, path), 0, c), Flatten(n) + rest)
         == Resumed(style, Stack(style, path), PutAll(c, Marks(style, n, path)), rest)
    decreases n, 0
  {
    var stack := Stack(style, path);
    var s := State(stack, 0, c);
    match n
    case Leaf(tag, attrs) => RunCons(style, s, OpenTag(tag, attrs, true), rest);
    case Element(tag, attrs, children) =>
      var inner := path + [Group(tag, attrs)];
      var close := [CloseTag(tag)] + rest;
      assert Flatten(n) + rest == [OpenTag(tag, attrs, false)] + (FlattenAll(children) + close);
      RunCons(style, s, OpenTag(tag, attrs, false), FlattenAll(children) + close);
      StackPushed(style, path, Group(tag, attrs));
      ScansAll(style, children, inner, c, close);
      var r := PutAll(c, Marks(style, n, path));
      if r.Ok? {
        RunCons(style, State(Stack(style, inner), 0, r.value), CloseTag(tag), rest);
        assert Stack(style, inner)[..|path|] == stack;
      }
  }

  /** An element whose own tag leaves `own` on the canvas and whose children are drawn in its place. */
  lemma {:induction false} ScansOpen(style: Style, n: Node, path: seq<Group>, c: Canvas, own: seq<Mark>, rest: seq<Token>)
    requires path != [] && |c.shapes| <= MAX_SHAPES
    requires !KindOf(n.tag).Skipped? && !KindOf(n.tag).Grouping? && !KindOf(n.tag).Lettering?
    requires Marks(style, n, path) == own + MarksInside(style, n, path)
    requires forall selfClosing :: Opened(style, State(Stack(style, path), 0, c), n.tag, n.attrs, selfClosing)
               == var r := PutAll(c, own); if r.Err? then Err(r.error) else Ok(State(Stack(style, path), 0, r.value))
    ensures Run(style, State(Stack(style, path), 0, c), Flatten(n) + rest)
         == Resumed(style, Stack(style, path), PutAll(c, Marks(style, n, path)), rest)
    decreases n, 0
  {
    var stack := Stack(style, path);
    var s, r := State(stack, 0, c), PutAll(c, own);
    PutAllAppend(c, own, MarksInside(style, n, path));
    if r.Ok? { PutAllBounded(c, own); }
    match n
    case Leaf(tag, attrs) => RunCons(style, s, OpenTag(tag, attrs, true), rest);
    case Element(tag, attrs, children) =>
      var close := [CloseTag(tag)] + rest;
      assert Flatten(n) + rest == [OpenTag(tag, attrs, false)] + (FlattenAll(children) + close);
      RunCons(style, s, OpenTag(tag, attrs, false), FlattenAll(children) + close);
      if r.Ok? {
        ScansAll(style, children, path, r.value, close);
        var r' := PutAll(r.value, MarksAll(style, children, path));
        if r'.Ok? { RunCons(style, State(stack, 0, r'.value), CloseTag(tag), rest); }
      }
  }

  lemma {:induction false} ScansAll(style: Style, ns: seq<Node>, path: seq<Group>, c: Canvas, rest: seq<Token>)
    requires path != [] && |c.shapes| <= MAX_SHAPES
    ensures Run(style, State(Stack(style, path), 0, c), FlattenAll(ns) + rest)
         == Resumed(style, Stack(style, path), PutAll(c, MarksAll(style, ns, path)), rest)
    decreases ns, 2
  {
    if ns == [] {
      assert FlattenAll(ns) + rest == rest;
    } else {
      var first := Marks(style, ns[0], path);
      assert FlattenAll(ns) + rest == Flatten(ns[0]) + (FlattenAll(ns[1..]) + rest);
      ScansNode(style, ns[0], path, c, FlattenAll(ns[1..]) + rest);
      PutAllAppend(c, first, MarksAll(style, ns[1..], path));
      var r := PutAll(c, first);
      if r.Ok? {
        PutAllBounded(c, first);
        ScansAll(style, ns[1..], path, r.value, rest);
      }
    }
  }

  function Scanned(style: Style, root: Attrs, children: seq<Node>): Result<Canvas, SvgError> {
    var r := Run(style, State([Seed(style, root)], 0, BLANK), Flatten(Element("svg", root, children)));
    if r.Err? then Err(r.error) else Ok(r.value.canvas)
  }

  /**
   * On every balanced file the loop draws the tree, each shape under its
   * enclosing groups. The root group counts twice: it seeds the stack and the
   * loop pushes it again.
   */
  lemma ScanDrawsTheTree(style: Style, root: Attrs, children: seq<Node>)
    ensures var g := Group("svg", root); Scanned(style, root, children) == PutAll(BLANK, MarksAll(style, children, [g, g]))
  {
    var g, n := Group("svg", root), Element("svg", root, children);
    assert Stack(style, [g]) == [Seed(style, root)] by {
      assert [g][..0] == [];
      assert Transforms([g]) == [root.transform];
      assert [root.transform][1..] == [];
      assert Joined([root.transform]) == root.transform;
      assert InheritedFill(style, [g]) == Seed(style, root).fill;
    }
    ScansNode(style, n, [g], BLANK, []);
    assert Flatten(n) + [] == Flatten(n);
    assert [g] + [g] == [g, g];
  }

  // ── The doubled root transform ─────────────────────────────────────────

  /** The same shape but for its transform, which differs unless it was too long to carry already. */
  predicate ShapeDoubled(t: string, a: Shape, b: Shape) {
    && a.d == b.d && a.fill == b.fill
    && (t == "" || a.transform.None? ==> b.transform == a.transform)
    && (t != "" && a.transform.Some? ==> b.transform != a.transform)
  }

  predicate MarkDoubled(t: string, a: Mark, b: Mark) {
    if a.Inked? then b.Inked? && ShapeDoubled(t, a.shape, b.shape) else a == b
  }

  predicate Doubled(t: string, a: seq<Mark>, b: seq<Mark>) {
    |a| == |b| && forall i :: 0 <= i < |a| ==> MarkDoubled(t, a[i], b[i])
  }

  lemma {:induction false} FillIgnoresDoubling(style: Style, g: Group, path: seq<Group>)
    ensures InheritedFill(style, [g, g] + path) == InheritedFill(style, [g] + path)
  {
    if path == [] {
      assert [g, g] + path == [g, g] && [g, g][..1] == [g] && [g] + path == [g];
      assert [g][..0] == [];
    } else {
      var k := |path| - 1;
      assert ([g, g] + path)[..k + 2] == [g, g] + path[..k];
      assert ([g] + path)[..k + 1] == [g] + path[..k];
      FillIgnoresDoubling(style, g, path[..k]);
    }
  }

  lemma InkDoubled(style: Style, tag: string, a: Attrs, g: Group, path: seq<Group>)
    ensures Doubled(g.attrs.transform, Ink(style, tag, a, [g] + path), Ink(style, tag, a, [g, g] + path))
  {
    FillIgnoresDoubling(style, g, path);
    var t, ts := g.attrs.transform, Transforms(path) + [a.transform];
    assert Transforms([g] + path) + [a.transform] == [t] + ts;
    assert Transforms([g, g] + path) + [a.transform] == [t] + ([t] + ts);
    assert ([t] + ts)[1..] == ts && ([t] + ([t] + ts))[1..] == [t] + ts;
    assert t != "" ==> |Joined([t] + ([t] + ts))| == |t| + 1 + |Joined([t] + ts)|;
  }

  lemma {:induction false} MarksDoubled(style: Style, n: Node, g: Group, path: seq<Group>)
    ensures Doubled(g.attrs.transform, Marks(style, n, [g] + path), Marks(style, n, [g, g] + path))
    decreases n, 0
  {
    match KindOf(n.tag)
    case Skipped =>
    case Lettering =>
    case Grouping =>
      var inner := path + [Group(n.tag, n.attrs)];
      assert [g] + path + [Group(n.tag, n.attrs)] == [g] + inner;
      assert [g, g] + path + [Group(n.tag, n.attrs)] == [g, g] + inner;
      if n.Element? { AllMarksDoubled(style, n.children, g, inner); }
    case Raster => if n.Element? { AllMarksDoubled(style, n.children, g, path); }
    case Transparent => if n.Element? { AllMarksDoubled(style, n.children, g, path); }
    case Drawn =>
      InkDoubled(style, n.tag, n.attrs, g, path);
      if n.Element? { AllMarksDoubled(style, n.children, g, path); }
  }

  lemma {:induction false} AllMarksDoubled(style: Style, ns: seq<Node>, g: Group, path: seq<Group>)
    ensures Doubled(g.attrs.transform, MarksAll(style, ns, [g] + path), MarksAll(style, ns, [g, g] + path))
    decreases ns, 1
  {
    if ns != [] {
      MarksDoubled(style, ns[0], g, path);
      AllMarksDoubled(style, ns[1..], g, path);
    }
  }

  predicate CanvasDoubled(t: string, a: Canvas, b: Canvas) {
    && a.sawText == b.sawText && a.sawRaster == b.sawRaster && |a.shapes| == |b.shapes|
    && forall i :: 0 <= i < |a.shapes| ==> ShapeDoubled(t, a.shapes[i], b.shapes[i])
  }

  lemma {:induction false} PutAllDoubled(t: string, a: Canvas, b: Canvas, m: seq<Mark>, n: seq<Mark>)
    requires CanvasDoubled(t, a, b) && Doubled(t, m, n)
    ensures var ra, rb := PutAll(a, m), PutAll(b, n);
            if ra.Err? then rb == ra else rb.Ok? && CanvasDoubled(t, ra.value, rb.value)
    decreases m
  {
    if m != [] {
      assert MarkDoubled(t, m[0], n[0]);
      assert Doubled(t, m[1..], n[1..]) by {
        forall i | 0 <= i < |m| - 1 ensures MarkDoubled(t, m[1..][i], n[1..][i]) {
          assert MarkDoubled(t, m[i + 1], n[i + 1]);
        }
      }
      var ra, rb := Put(a, m[0]), Put(b, n[0]);
      if ra.Ok? { PutAllDoubled(t, ra.value, rb.value, m[1..], n[1..]); }
    }
  }

  /**
   * Counting the root group once instead gives the same result exactly when the
   * root has no transform, the file is refused anyway, or no shape has a
   * transform short enough to be carried.
   */
  lemma RootTransformCountsOnceIff(style: Style, root: Attrs, children: seq<Node>)
    ensures var once := PutAll(BLANK, MarksAll(style, children, [Group("svg", root)]));
            Scanned(style, root, children) == once
            <==> (root.transform == "" || once.Err? || forall s :: s in once.value.shapes ==> s.transform.None?)
  {
    var g, t := Group("svg", root), root.transform;
    var m, n := MarksAll(style, children, [g]), MarksAll(style, children, [g, g]);
    ScanDrawsTheTree(style, root, children);
    AllMarksDoubled(style, children, g, []);
    assert [g] + [] == [g] && [g, g] + [] == [g, g];
    PutAllDoubled(t, BLANK, BLANK, m, n);
    var a, b := PutAll(BLANK, m), PutAll(BLANK, n);
    if a.Ok? {
      var sa, sb := a.value.shapes, b.value.shapes;
      if t == "" || forall s :: s in sa ==> s.transform.None? {
        forall i | 0 <= i < |sa| ensures sa[i] == sb[i] { assert ShapeDoubled(t, sa[i], sb[i]); }
        assert sa == sb;
      } else {
        var i :| 0 <= i < |sa| && sa[i].transform.Some?;
        assert ShapeDoubled(t, sa[i], sb[i]);
      }
    }
  }
}
