/**
 * Inline tags around a translation: buildPlaceholderText and restoreInlineTags
 * of src/ai/free-translate.service.ts.
 */
module Placeholders {
  import opened Common

  const LEFT := '\U{27E6}'

  const RIGHT := '\U{27E7}'

  datatype InlineTag = InlineTag(name: string, open: string)

  /** A child of a block: text, one inline element with its serialised attributes and markup, or anything else. */
  datatype Node = TextNode(data: string) | InlineNode(name: string, attrs: string, html: string, text: string) | OtherNode

  function OpeningTag(n: Node): string
    requires n.InlineNode?
  {
    "<" + n.name + n.attrs + ">"
  }

  function ClosingTag(name: string): string {
    "</" + name + ">"
  }

  /** The text up to and including the first '>'; nothing when there is none. */
  function UpToBracket(html: string): string {
    if '>' !in html then ""
    else if html[0] == '>' then ">"
    else [html[0]] + UpToBracket(html[1..])
  }

  function TagOf(n: Node): InlineTag
    requires n.InlineNode?
  {
    InlineTag(n.name, UpToBracket(n.html))
  }

  // ── Decimal indices ────────────────────────────────────────────────────

  predicate IsDigit(c: char) {
    '0' <= c <= '9'
  }

  predicate IsDigits(s: string) {
    s != [] && forall i :: 0 <= i < |s| ==> IsDigit(s[i])
  }

  function Digits(n: nat): (s: string)
    ensures IsDigits(s)
  {
    (if n < 10 then "" else Digits(n / 10)) + ['0' + (n % 10) as char]
  }

  function Value(s: string): nat
    requires forall i :: 0 <= i < |s| ==> IsDigit(s[i])
  {
    if s == [] then 0 else assert IsDigit(s[|s| - 1]); 10 * Value(s[..|s| - 1]) + (s[|s| - 1] as int - '0' as int)
  }

  lemma {:induction false} ValueOfDigits(n: nat)
    ensures Value(Digits(n)) == n
  {
    var s := Digits(n);
    if n >= 10 {
      ValueOfDigits(n / 10);
      assert s[..|s| - 1] == Digits(n / 10);
    }
  }

  // ── Printing ───────────────────────────────────────────────────────────

  /** Text to translate: plain stretches and the tokens for tag number n. */
  datatype Piece = Plain(text: string) | Opening(n: nat) | Closing(n: nat)

  function TokenOf(piece: Piece): string
    requires !piece.Plain?
  {
    [LEFT] + (if piece.Closing? then "/" else "") + Digits(piece.n) + [RIGHT]
  }

  function PrintedPiece(piece: Piece): string {
    if piece.Plain? then piece.text else TokenOf(piece)
  }

  function Printed(pieces: seq<Piece>): string {
    if pieces == [] then "" else PrintedPiece(pieces[0]) + Printed(pieces[1..])
  }

  /** What a piece stands for: a token with a known number is its tag, one with an unknown number is itself. */
  function RenderedPiece(piece: Piece, tags: seq<InlineTag>): string {
    match piece
    case Plain(text) => text
    case Opening(n) => if n < |tags| then tags[n].open else TokenOf(piece)
    case Closing(n) => if n < |tags| then ClosingTag(tags[n].name) else TokenOf(piece)
  }

  function Rendered(pieces: seq<Piece>, tags: seq<InlineTag>): string {
    if pieces == [] then "" else RenderedPiece(pieces[0], tags) + Rendered(pieces[1..], tags)
  }

  // ── Restoring ──────────────────────────────────────────────────────────

  function DigitRun(s: string): (n: nat)
    ensures n <= |s| && forall i :: 0 <= i < n ==> IsDigit(s[i])
  {
    if s == [] || !IsDigit(s[0]) then 0 else 1 + DigitRun(s[1..])
  }

  datatype Match = Match(closing: bool, digits: string)

  /** The token at the front of the text, if there is one. */
  function MatchAt(s: string): (m: Option<Match>)
    ensures m.Some? ==> IsDigits(m.value.digits) && |m.value.digits| + (if m.value.closing then 3 else 2) <= |s|
  {
    if s == [] || s[0] != LEFT then None
    else
      var closing := |s| > 1 && s[1] == '/';
      var rest := s[if closing then 2 else 1..];
      var n := DigitRun(rest);
      if 0 < n < |rest| && rest[n] == RIGHT then Some(Match(closing, rest[..n])) else None
  }

  function Replacement(m: Match, matched: string, tags: seq<InlineTag>): string
    requires IsDigits(m.digits)
  {
    var n := Value(m.digits);
    if n >= |tags| then matched else if m.closing then ClosingTag(tags[n].name) else tags[n].open
  }

  /** Every token replaced, left to right; a replacement is not looked at again. */
  function Restored(s: string, tags: seq<InlineTag>): string {
    if s == [] then []
    else
      var m := MatchAt(s);
      if m.None? then [s[0]] + Restored(s[1..], tags)
      else
        var end := |m.value.digits| + if m.value.closing then 3 else 2;
        Replacement(m.value, s[..end], tags) + Restored(s[end..], tags)
  }

  lemma {:induction false} PlainStays(text: string, rest: string, tags: seq<InlineTag>)
    requires LEFT !in text
    ensures Restored(text + rest, tags) == text + Restored(rest, tags)
  {
    if text == [] {
      assert text + rest == rest;
    } else {
      var s := text + rest;
      assert s[0] == text[0] && s[0] != LEFT;
      assert s[1..] == text[1..] + rest;
      PlainStays(text[1..], rest, tags);
    }
  }

  lemma {:induction false} DigitRunStops(digits: string, rest: string)
    requires forall i :: 0 <= i < |digits| ==> IsDigit(digits[i])
    requires rest != [] && !IsDigit(rest[0])
    ensures DigitRun(digits + rest) == |digits|
  {
    if digits == [] {
      assert digits + rest == rest;
    } else {
      assert (digits + rest)[1..] == digits[1..] + rest;
      DigitRunStops(digits[1..], rest);
    }
  }

  lemma TokenMatches(piece: Piece, rest: string)
    requires !piece.Plain?
    ensures MatchAt(TokenOf(piece) + rest) == Some(Match(piece.Closing?, Digits(piece.n)))
  {
    var s, digits := TokenOf(piece) + rest, Digits(piece.n);
    var start := if piece.Closing? then 2 else 1;
    var tail := [RIGHT] + rest;
    assert s == ([LEFT] + if piece.Closing? then "/" else "") + (digits + tail);
    assert s[start..] == digits + tail;
    DigitRunStops(digits, tail);
    assert (digits + tail)[..|digits|] == digits && (digits + tail)[|digits|] == RIGHT;
    assert IsDigit(digits[0]) && s[1] == if piece.Closing? then '/' else digits[0];
  }

  lemma TokenRestores(piece: Piece, rest: string, tags: seq<InlineTag>)
    requires !piece.Plain?
    ensures Restored(TokenOf(piece) + rest, tags) == RenderedPiece(piece, tags) + Restored(rest, tags)
  {
    var token := TokenOf(piece);
    var s := token + rest;
    TokenMatches(piece, rest);
    ValueOfDigits(piece.n);
    assert s[..|token|] == token && s[|token|..] == rest;
  }

  /**
   * However the translation moves, repeats or drops tokens and rewrites the
   * words between them, every surviving token comes back as its own tag.
   */
  lemma {:induction false} RestoredPieces(pieces: seq<Piece>, tags: seq<InlineTag>)
    requires forall i :: 0 <= i < |pieces| && pieces[i].Plain? ==> LEFT !in pieces[i].text
    ensures Restored(Printed(pieces), tags) == Rendered(pieces, tags)
  {
    if pieces != [] {
      RestoredPieces(pieces[1..], tags);
      if pieces[0].Plain? {
        PlainStays(pieces[0].text, Printed(pieces[1..]), tags);
      } else {
        TokenRestores(pieces[0], Printed(pieces[1..]), tags);
      }
    }
  }

  // ── Which texts are tokens ─────────────────────────────────────────────

  /** Left bracket, a slash in a closing token, a number, right bracket. */
  function Spelled(closing: bool, digits: string): string {
    ['\U{27E6}'] + (if closing then "/" else "") + digits + ['\U{27E7}']
  }

  lemma {:induction false} DigitRunIs(s: string, digits: string)
    requires IsDigits(digits) && digits <= s && |digits| < |s| && !IsDigit(s[|digits|])
    ensures DigitRun(s) == |digits|
  {
    var rest := s[|digits|..];
    assert s == digits + rest;
    DigitRunStops(digits, rest);
  }

  lemma MatchAtSpelled(s: string, closing: bool, digits: string)
    requires IsDigits(digits) && Spelled(closing, digits) <= s
    ensures MatchAt(s) == Some(Match(closing, digits))
  {
    var token, start := Spelled(closing, digits), if closing then 2 else 1;
    var rest := s[start..];
    assert s[0] == token[0] && s[1] == token[1];
    assert token[start..start + |digits|] == digits && token[start + |digits|] == RIGHT;
    assert s[start..start + |digits|] == token[start..start + |digits|];
    assert rest[..|digits|] == digits && rest[|digits|] == token[start + |digits|];
    assert IsDigit(digits[0]);
    DigitRunIs(rest, digits);
  }

  lemma MatchAtIsSpelled(s: string)
    requires MatchAt(s).Some?
    ensures Spelled(MatchAt(s).value.closing, MatchAt(s).value.digits) <= s
  {
    var m := MatchAt(s).value;
    var start := if m.closing then 2 else 1;
    var token, n := Spelled(m.closing, m.digits), |m.digits|;
    assert s[start..][..n] == m.digits && s[start..][n] == RIGHT;
    forall k | 0 <= k < |token| ensures k < |s| && s[k] == token[k] {
      if start <= k < start + n { assert s[start..][k - start] == m.digits[k - start]; }
    }
    assert s[..|token|] == token;
  }

  /** A spelled token with a known number becomes its tag, opening or closing; one with an unknown number stays. */
  lemma RestoredToken(closing: bool, digits: string, rest: string, tags: seq<InlineTag>)
    requires IsDigits(digits)
    ensures Restored(Spelled(closing, digits) + rest, tags) ==
            (if Value(digits) >= |tags| then Spelled(closing, digits)
             else if closing then "</" + tags[Value(digits)].name + ">"
             else tags[Value(digits)].open) + Restored(rest, tags)
  {
    var token := Spelled(closing, digits);
    var s := token + rest;
    MatchAtSpelled(s, closing, digits);
    assert s[..|token|] == token && s[|token|..] == rest;
  }

  /** Anything else stays, character by character. */
  lemma RestoredOther(s: string, tags: seq<InlineTag>)
    requires s != [] && forall closing, digits :: IsDigits(digits) ==> !(Spelled(closing, digits) <= s)
    ensures Restored(s, tags) == [s[0]] + Restored(s[1..], tags)
  {
    if MatchAt(s).Some? { MatchAtIsSpelled(s); }
  }

  /** Tokens are printed as they are spelled, their numbers without leading zeros. */
  lemma {:induction false} TokensAreSpelled(piece: Piece)
    requires !piece.Plain?
    ensures TokenOf(piece) == Spelled(piece.Closing?, Digits(piece.n))
    ensures piece.n < 10 ==> |Digits(piece.n)| == 1
    ensures piece.n >= 10 ==> Digits(piece.n)[0] != '0'
    decreases piece.n
  {
    if piece.n >= 10 { TokensAreSpelled(Opening(piece.n / 10)); }
  }

  // ── Building ───────────────────────────────────────────────────────────

  function TagsAfter(tags: seq<InlineTag>, n: Node): seq<InlineTag> {
    if n.InlineNode? then tags + [TagOf(n)] else tags
  }

  /** The table once a block has been read into it. */
  function TagsOf(before: seq<InlineTag>, block: seq<Node>): seq<InlineTag> {
    if block == [] then before else TagsAfter(TagsOf(before, block[..|block| - 1]), block[|block| - 1])
  }

  /** The pieces of one child whose tag, if it has one, is number `i`. */
  function ChildPieces(n: Node, i: nat): seq<Piece> {
    match n
    case TextNode(data) => [Plain(data)]
    case InlineNode(_, _, _, text) => [Opening(i), Plain(text), Closing(i)]
    case OtherNode => []
  }

  /** The pieces of a block read into a table that already holds `before`. */
  function PiecesOf(before: seq<InlineTag>, block: seq<Node>): seq<Piece> {
    if block == [] then []
    else
      var front := block[..|block| - 1];
      PiecesOf(before, front) + ChildPieces(block[|block| - 1], |TagsOf(before, front)|)
  }

  class TagTable {
    var tags: seq<InlineTag>

    constructor ()
      ensures tags == []
    {
      tags := [];
    }

    method Push(tag: InlineTag) returns (length: nat)
      modifies this
      ensures tags == old(tags) + [tag] && length == |tags|
    {
      tags := tags + [tag];
      return |tags|;
    }
  }

  lemma {:induction false} PrintedAppend(a: seq<Piece>, b: seq<Piece>)
    ensures Printed(a + b) == Printed(a) + Printed(b)
  {
    if a == [] {
      assert a + b == b;
    } else {
      assert (a + b)[1..] == a[1..] + b;
      PrintedAppend(a[1..], b);
    }
  }

  function ChildText(n: Node, i: nat): string {
    match n
    case TextNode(data) => data
    case InlineNode(_, _, _, text) => TokenOf(Opening(i)) + (text + TokenOf(Closing(i)))
    case OtherNode => ""
  }

  lemma PrintedChild(n: Node, i: nat)
    ensures Printed(ChildPieces(n, i)) == ChildText(n, i)
  {
    match n
    case TextNode(data) =>
      assert [Plain(data)][1..] == [];
      assert Printed([Plain(data)]) == data;
    case InlineNode(_, _, _, text) =>
      var p := [Opening(i), Plain(text), Closing(i)];
      assert p[1..] == [Plain(text), Closing(i)] && p[1..][1..] == [Closing(i)] && p[1..][1..][1..] == [];
      assert Printed([Closing(i)]) == TokenOf(Closing(i));
      assert Printed([Plain(text), Closing(i)]) == text + TokenOf(Closing(i));
    case OtherNode =>
  }

  lemma BlockGrows(before: seq<InlineTag>, block: seq<Node>, n: Node)
    ensures TagsOf(before, block + [n]) == TagsAfter(TagsOf(before, block), n)
    ensures PiecesOf(before, block + [n]) == PiecesOf(before, block) + ChildPieces(n, |TagsOf(before, block)|)
  {
    assert (block + [n])[..|block|] == block;
  }

  lemma PrintedGrows(before: seq<InlineTag>, block: seq<Node>, n: Node)
    ensures Printed(PiecesOf(before, block + [n])) == Printed(PiecesOf(before, block)) + ChildText(n, |TagsOf(before, block)|)
  {
    var i := |TagsOf(before, block)|;
    BlockGrows(before, block, n);
    PrintedAppend(PiecesOf(before, block), ChildPieces(n, i));
    PrintedChild(n, i);
  }

  method BuildPlaceholderText(block: seq<Node>, table: TagTable) returns (out: string)
    modifies table
    ensures table.tags == TagsOf(old(table.tags), block)
    ensures out == Printed(PiecesOf(old(table.tags), block))
  {
    out := "";
    ghost var before := table.tags;
    for k := 0 to |block|
      invariant table.tags == TagsOf(before, block[..k])
      invariant out == Printed(PiecesOf(before, block[..k]))
    {
      assert block[..k + 1] == block[..k] + [block[k]];
      BlockGrows(before, block[..k], block[k]);
      PrintedGrows(before, block[..k], block[k]);
      ghost var grown := out + ChildText(block[k], |table.tags|);
      if block[k].TextNode? {
        out := out + block[k].data;
      } else if block[k].InlineNode? {
        var length := table.Push(TagOf(block[k]));
        var i := length - 1;
        out := out + (TokenOf(Opening(i)) + (block[k].text + TokenOf(Closing(i))));
      }
      assert out == grown;
    }
    assert block[..|block|] == block;
  }

  // ── The round trip ─────────────────────────────────────────────────────

  /** A child's own markup: text and inline elements, everything else dropped. */
  function MarkupOf(n: Node): string {
    match n
    case TextNode(data) => data
    case InlineNode(name, _, _, text) => OpeningTag(n) + (text + ClosingTag(name))
    case OtherNode => ""
  }

  function Original(block: seq<Node>): string {
    if block == [] then "" else Original(block[..|block| - 1]) + MarkupOf(block[|block| - 1])
  }

  predicate NoTokens(block: seq<Node>) {
    forall n :: n in block ==> (n.TextNode? ==> LEFT !in n.data) && (n.InlineNode? ==> LEFT !in n.text)
  }

  /** An element's markup begins with its opening tag; names come from a fixed vocabulary of letters. */
  predicate Serialised(n: Node) {
    n.InlineNode? ==> OpeningTag(n) <= n.html && '>' !in n.name
  }

  predicate AllSerialised(block: seq<Node>) {
    forall n :: n in block ==> Serialised(n)
  }

  predicate NoBracketInAttributes(block: seq<Node>) {
    forall n :: n in block && n.InlineNode? ==> '>' !in n.attrs
  }

  lemma {:induction false} UpToBracketAt(html: string, k: nat)
    requires k < |html| && html[k] == '>' && '>' !in html[..k]
    ensures UpToBracket(html) == html[..k + 1]
  {
    if k > 0 {
      assert html[0] == html[..k][0];
      assert html[1..][..k - 1] == html[..k][1..];
      UpToBracketAt(html[1..], k - 1);
      assert [html[0]] + html[1..][..k] == html[..k + 1];
    }
  }

  lemma UpToBracketStops(a: string, rest: string)
    requires '>' !in a
    ensures UpToBracket(a + ">" + rest) == a + ">"
  {
    var html := a + ">" + rest;
    assert html[..|a|] == a && html[|a|] == '>' && html[..|a| + 1] == a + ">";
    UpToBracketAt(html, |a|);
  }

  /** Markup without a bracket stores no opening tag at all. */
  lemma NoBracketNoTag(n: Node)
    requires n.InlineNode? && '>' !in n.html
    ensures TagOf(n) == InlineTag(n.name, "")
  {
  }

  lemma {:induction false} UpToBracketEarly(a: string, rest: string)
    requires '>' in a
    ensures |UpToBracket(a + rest)| <= |a|
  {
    if a[0] != '>' {
      assert (a + rest)[1..] == a[1..] + rest;
      assert a == [a[0]] + a[1..];
      UpToBracketEarly(a[1..], rest);
    }
  }

  /** The stored opening tag is the element's own exactly when no attribute holds a '>'; otherwise it is cut short. */
  lemma OpeningTagKeptIff(n: Node)
    requires n.InlineNode? && Serialised(n)
    ensures '>' !in n.attrs ==> TagOf(n).open == OpeningTag(n)
    ensures '>' in n.attrs ==> |TagOf(n).open| < |OpeningTag(n)|
  {
    var head, opening := "<" + n.name + n.attrs, OpeningTag(n);
    var rest := n.html[|opening|..];
    assert opening == head + ">" && n.html == opening + rest;
    if '>' !in n.attrs {
      UpToBracketStops(head, rest);
    } else {
      var i :| 0 <= i < |n.attrs| && n.attrs[i] == '>';
      assert head[1 + |n.name| + i] == '>';
      UpToBracketEarly(head, ">" + rest);
      assert n.html == head + (">" + rest);
    }
  }

  lemma {:induction false} RenderedAppend(a: seq<Piece>, b: seq<Piece>, tags: seq<InlineTag>)
    ensures Rendered(a + b, tags) == Rendered(a, tags) + Rendered(b, tags)
  {
    if a == [] {
      assert a + b == b;
    } else {
      assert (a + b)[1..] == a[1..] + b;
      RenderedAppend(a[1..], b, tags);
    }
  }

  lemma RenderedTriple(i: nat, text: string, tags: seq<InlineTag>)
    requires i < |tags|
    ensures Rendered([Opening(i), Plain(text), Closing(i)], tags) == tags[i].open + (text + ClosingTag(tags[i].name))
  {
    var p := [Opening(i), Plain(text), Closing(i)];
    assert p[1..] == [Plain(text), Closing(i)] && p[1..][1..] == [Closing(i)] && p[1..][1..][1..] == [];
    assert Rendered([Closing(i)], tags) == ClosingTag(tags[i].name);
    assert Rendered([Plain(text), Closing(i)], tags) == text + ClosingTag(tags[i].name);
  }

  predicate KeptOrCut(rendered: string, original: string, kept: bool) {
    if kept then rendered == original else |rendered| < |original|
  }

  lemma CutBefore(open: string, opening: string, tail: string, kept: bool)
    requires if kept then open == opening else |open| < |opening|
    ensures KeptOrCut(open + tail, opening + tail, kept)
  {
  }

  lemma RenderedText(data: string, tags: seq<InlineTag>)
    ensures Rendered([Plain(data)], tags) == data
  {
    assert [Plain(data)][1..] == [];
  }

  lemma RenderedChild(n: Node, i: nat, tags: seq<InlineTag>)
    requires Serialised(n) && (n.InlineNode? ==> i < |tags| && tags[i] == TagOf(n))
    ensures KeptOrCut(Rendered(ChildPieces(n, i), tags), MarkupOf(n), n.InlineNode? ==> '>' !in n.attrs)
  {
    if n.TextNode? {
      RenderedText(n.data, tags);
    } else if n.InlineNode? {
      RenderedTriple(i, n.text, tags);
      OpeningTagKeptIff(n);
      CutBefore(TagOf(n).open, OpeningTag(n), n.text + ClosingTag(n.name), '>' !in n.attrs);
    }
  }

  /** What the tokens of a block render to: its own markup, cut short wherever an attribute holds a '>'. */
  lemma {:induction false} RenderedBlock(block: seq<Node>, tags: seq<InlineTag>)
    requires AllSerialised(block) && TagsOf([], block) <= tags
    ensures KeptOrCut(Rendered(PiecesOf([], block), tags), Original(block), NoBracketInAttributes(block))
  {
    if block != [] {
      var before, n := block[..|block| - 1], block[|block| - 1];
      assert block == before + [n];
      RenderedBlock(before, tags);
      var i := |TagsOf([], before)|;
      if n.InlineNode? { assert tags[i] == TagsOf([], block)[i] == TagOf(n); }
      RenderedChild(n, i, tags);
      RenderedAppend(PiecesOf([], before), ChildPieces(n, i), tags);
      assert NoBracketInAttributes(block) <==> NoBracketInAttributes(before) && (n.InlineNode? ==> '>' !in n.attrs);
    }
  }

  lemma {:induction false} PiecesPlain(before: seq<InlineTag>, block: seq<Node>)
    requires NoTokens(block)
    ensures forall i :: 0 <= i < |PiecesOf(before, block)| && PiecesOf(before, block)[i].Plain? ==>
                          LEFT !in PiecesOf(before, block)[i].text
  {
    if block != [] {
      assert block[|block| - 1] in block;
      PiecesPlain(before, block[..|block| - 1]);
    }
  }

  /**
   * Text that the translator leaves alone comes back with every opening and
   * closing tag, exactly when no attribute of an inline element holds a '>'.
   */
  lemma RoundTripIff(block: seq<Node>)
    requires NoTokens(block) && AllSerialised(block)
    ensures Restored(Printed(PiecesOf([], block)), TagsOf([], block)) == Original(block) <==> NoBracketInAttributes(block)
  {
    PiecesPlain([], block);
    RestoredPieces(PiecesOf([], block), TagsOf([], block));
    RenderedBlock(block, TagsOf([], block));
  }

  lemma CutElement(n: Node)
    requires n.InlineNode? && Serialised(n) && LEFT !in n.text && '>' in n.attrs
    ensures Restored(Printed(PiecesOf([], [n])), TagsOf([], [n])) != Original([n])
  {
    assert [n][0] == n;
    RoundTripIff([n]);
  }

  /** An element with a '>' in an attribute does not survive, although its text holds no token. */
  lemma BracketInAttribute() returns (n: Node)
    ensures n == InlineNode("b", " t=\">\"", "<b t=\">\">x</b>", "x") && Serialised(n)
    ensures Restored(Printed(PiecesOf([], [n])), TagsOf([], [n])) != Original([n])
  {
    n := InlineNode("b", " t=\">\"", "<b t=\">\">x</b>", "x");
    assert Serialised(n) by { assert n.html[..9] == OpeningTag(n); }
    assert n.attrs[4] == '>';
    CutElement(n);
  }
}
