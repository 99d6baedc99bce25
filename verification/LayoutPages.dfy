// What whole lines come to: headings and their gaps, blank lines, images and partials, and shades of grey.
module LayoutPages {
  import opened Geometry
  import opened Utf8
  import opened Chunks
  import opened Arith
  import opened LayoutTypes
  import opened LayoutSpec
  import opened LayoutWalk
  import opened LayoutTables
  import opened LayoutText
  import opened LayoutPlaced
  import opened LayoutFaces

  // ---- Headings -------------------------------------------------------

  /** The height of a heading's row without the leading, and the gap under it. */
  function LadderHeight(depth: nat): nat {
    if depth <= 1 then 26 + 9 else if depth == 2 then 16 + 4 else 13 + 4
  }

  lemma StyledRow(g: Page, s: Layout, t: seq<bv8>, style: Style)
    requires !s.pen.rowOpen && s.pen.head == 0 && s.pen.rowH == 0 && style.align == Left && !style.literal
    ensures var b := Styled(g, s, t, style); var takes := TakesHead(g, false, t, style);
      && b.log == s.log && b.pen.y == s.pen.y && b.pen.x == Indent(b) == LeftEdge(style.depth) && !b.pen.rowOpen && !b.pen.literal
      && b.pen.depth == style.depth
      && b.pen.head == (if takes then HeadWanted(style.depth) else 0)
      && b.pen.rowH == (if takes then FaceHeight(LadderFace(style.depth)) + g.cfg.leading else 0)
      && Pace(b) == (if takes then FaceWidth(LadderFace(style.depth)) else 6)
      && b.pen.headRule == (g.cfg.stepped && style.heading && style.depth >= 2 && !takes)
  {
    hide TakesHead, HasBg, Luma, Cells;
  }

  lemma EmitTypes(g: Page, s: Layout, t: seq<bv8>)
    requires Chunked(t, 0) && !s.pen.literal && s.pen.x == Indent(s) && Seen(g.view, s.pen.y) && Cells(t) * Pace(s) <= 398 - Indent(s)
    ensures var b := EmitRun(g, s, t, s.pen.invert);
      && b.pen == s.pen.(x := b.pen.x, rowOpen := b.pen.rowOpen) && b.pen.x == s.pen.x + Cells(t) * Pace(s)
  {
    hide Glyphs, Tokens, Pace, Cells, Indent, Seen, ScreenY;
    CellsAreChunks(t);
    ProseTypes(g, s, t, 0, s.pen.invert);
  }

  /** The steps of the ladder: a heading that fits its row takes up its face's height, the leading and a gap, and a body
      row and the small gap when its face does not carry it. */
  lemma HeadingOccupies(g: Page, s: Layout, t: seq<bv8>, style: Style)
    requires Chunked(t, 0) && style.heading && !style.literal && style.align == Left
    requires !s.pen.rowOpen && s.pen.head == 0 && s.pen.rowH == 0 && Seen(g.view, s.pen.y)
    requires Cells(t) * (if TakesHead(g, false, t, style) then FaceWidth(LadderFace(style.depth)) else 6) <= 398 - LeftEdge(style.depth)
    ensures var b := OnLineEnd(g, OnText(g, s, t, style), style);
      && b.pen.y == s.pen.y + g.cfg.leading + (if TakesHead(g, false, t, style) then LadderHeight(style.depth) else 13 + 4)
      && b.pen.x == LeftEdge(style.depth) && !b.pen.rowOpen && b.pen.head == 0 && b.pen.rowH == 0 && !b.pen.bold && !b.pen.invert
  {
    hide Seen, TakesHead, Cells, Styled, EmitRun, Pace, ScreenY;
    var s1 := Styled(g, s, t, style);
    StyledRow(g, s, t, style);
    EmitTypes(g, s1, t);
    Ladder(style.depth);
    var b := EmitRun(g, s1, t, s1.pen.invert);
    assert OnText(g, s, t, style) == b;
  }

  /** Plain text that fits its row takes a body row and no gap. */
  lemma BodyLineOccupies(g: Page, s: Layout, t: seq<bv8>, style: Style)
    requires Chunked(t, 0) && !style.heading && !style.literal && style.align == Left
    requires !s.pen.rowOpen && s.pen.head == 0 && s.pen.rowH == 0 && Seen(g.view, s.pen.y) && 6 * Cells(t) <= 398 - LeftEdge(style.depth)
    ensures var b := OnLineEnd(g, OnText(g, s, t, style), style);
      && b.pen.y == s.pen.y + 13 + g.cfg.leading && b.pen.x == LeftEdge(style.depth) && !b.pen.rowOpen && !b.pen.invert
  {
    hide Seen, Cells, Styled, EmitRun, Pace, ScreenY;
    var s1 := Styled(g, s, t, style);
    StyledRow(g, s, t, style);
    EmitTypes(g, s1, t);
    var b := EmitRun(g, s1, t, s1.pen.invert);
    assert OnText(g, s, t, style) == b;
  }

  lemma Ladder(depth: nat)
    ensures FaceHeight(LadderFace(depth)) + (if HeadWanted(depth) == 1 then 9 else 4) == LadderHeight(depth)
  {
  }

  /** A heading that falls back is ruled, if the ladder is stepped: on its row's last line, from the left edge, at depth
      two to the right margin and below that under its own text; at depth one not at all, nor is one in its own face. */
  lemma FallbackIsRuled(g: Page, s: Layout, t: seq<bv8>, style: Style)
    requires Chunked(t, 0) && t != [] && style.heading && !style.literal && style.align == Left
    requires !s.pen.rowOpen && s.pen.head == 0 && s.pen.rowH == 0 && Seen(g.view, s.pen.y)
    requires Cells(t) * (if TakesHead(g, false, t, style) then FaceWidth(LadderFace(style.depth)) else 6) <= 398 - LeftEdge(style.depth)
    ensures var a := OnText(g, s, t, style); var left := LeftEdge(style.depth);
      OnLineEnd(g, a, style).log == a.log +
        if g.cfg.stepped && style.depth >= 2 && !TakesHead(g, false, t, style)
        then [Draw(ScreenY(g.view, s.pen.y), 13 + g.cfg.leading,
                   Rule(left, 13 + g.cfg.leading - 1, if style.depth == 2 then 398 - left else 6 * Cells(t), true))]
        else []
  {
    hide Seen, TakesHead, Cells, Styled, EmitRun, Pace, ScreenY;
    var s1 := Styled(g, s, t, style);
    StyledRow(g, s, t, style);
    EmitTypes(g, s1, t);
    RowOpens(g, s1, t);
    var b := EmitRun(g, s1, t, s1.pen.invert);
    assert OnText(g, s, t, style) == b;
    assert b.log + [] == b.log;
  }

  lemma TokenOpens(g: Page, s: Layout, t: seq<bv8>, i: nat, sp: nat, e: nat, invert: bool)
    requires i <= sp <= e <= |t| && i < e && forall j :: i <= j < sp ==> Blankish(t[j])
    requires Indent(s) <= s.pen.x && s.pen.x + ChunkCount(t, i, e) * Pace(s) <= 398
    ensures Token(g, s, t, i, sp, e, invert).pen.rowOpen
  {
    hide Pace, Word, LongWord, Lead, ChunkCount, Indent;
    BlanksCount(t, i, sp, e);
    Distributes(sp - i, ChunkCount(t, sp, e), Pace(s));
    WordFits(s, t, sp, e);
    PaceAtLeast(s, sp - i);
    var w := LeadWidth(s, i, sp);
    LeadWalks(g, s, w, invert);
    WordWalks(g, if w != 0 then Lead(g, s, w, invert) else s, t, sp, e, invert);
  }

  lemma PaceAtLeast(s: Layout, n: nat)
    ensures n > 0 ==> n * Pace(s) > 0
  {
  }

  // A run that is not empty opens its row.
  lemma {:induction false} ProseOpens(g: Page, s: Layout, t: seq<bv8>, i: nat, invert: bool)
    requires Chunked(t, i) && Seen(g.view, s.pen.y) && Indent(s) <= s.pen.x && s.pen.x + ChunkCount(t, i, |t|) * Pace(s) <= 398
    ensures s.pen.rowOpen || i < |t| ==> Tokens(g, s, t, i, invert).pen.rowOpen
    decreases |t| - i
  {
    hide Pace, Token, Seen, ChunkCount, Indent, Types, Chunked, Reaches;
    if i < |t| {
      TokenReach(t, i);
      var sp := SkipBlankish(t, i);
      var e := WordEnd(t, sp);
      var p, n, m := Pace(s), ChunkCount(t, i, e), ChunkCount(t, e, |t|);
      BlanksReachEnd(t, i, sp);
      CountSplit(t, i, e, |t|);
      Distributes(n, m, p);
      assert s.pen.x + n * p <= 398;
      TokenTypes(g, s, t, i, sp, e, invert);
      TokenOpens(g, s, t, i, sp, e, invert);
      var s1 := Token(g, s, t, i, sp, e, invert);
      TypesPen(g, s, s1, t, i, e, invert);
      ProseOpens(g, s1, t, e, invert);
    }
  }

  lemma RowOpens(g: Page, s: Layout, t: seq<bv8>)
    requires Chunked(t, 0) && t != [] && !s.pen.literal && s.pen.x == Indent(s) && Seen(g.view, s.pen.y) && Cells(t) * Pace(s) <= 398 - Indent(s)
    ensures EmitRun(g, s, t, s.pen.invert).pen.rowOpen
  {
    hide Tokens, Pace, Cells, Indent, Seen;
    CellsAreChunks(t);
    ProseOpens(g, s, t, 0, s.pen.invert);
  }

  // ---- Blank lines ----------------------------------------------------

  /** Whether a blank line would be swallowed after these callbacks. */
  function Swallows(before: bool, cbs: seq<Callback>): bool
    decreases |cbs|
  {
    if cbs == [] then before
    else Swallows(if cbs[0].Text? then false else if cbs[0].Blank? then true else before, cbs[1..])
  }

  lemma RunBlank(g: Page, s: Layout, t: seq<bv8>, invert: bool)
    requires Chunked(t, 0)
    ensures EmitRun(g, s, t, invert).pen.blankPending == s.pen.blankPending
  {
    hide EmitRun;
    RunWalks(g, s, t, invert);
  }

  lemma {:induction false} DividerBlank(g: Page, s: Layout, x: nat, bytes: seq<bv8>)
    ensures DividerFrom(g, s, x, bytes).pen == s.pen
    decreases RIGHT - x
  {
    if x + FONT_ADVANCE <= RIGHT {
      DividerBlank(g, Put(g, s, Symbol(x, bytes, true)), x + FONT_ADVANCE, bytes);
    }
  }

  lemma {:induction false} ColsBlank(g: Page, s: Layout, f: Field, col: nat, vk: nat, hasBg: bool, ink: bool)
    ensures FieldCols(g, s, f, col, vk, hasBg, ink).pen.blankPending == s.pen.blankPending
    decreases FieldWidth(f) - col
  {
    hide FieldWidth, ChunkAt;
    if col < FieldWidth(f) && s.pen.x + FONT_ADVANCE <= RIGHT {
      ColsBlank(g, Moved(FieldCell(g, s, f, vk, hasBg, ink), FONT_ADVANCE), f, col + 1,
                if vk < |f.value| then vk + SeqLen(f.value[vk]) else vk, hasBg, ink);
    }
  }

  lemma FieldBlank(g: Page, s: Layout, f: Field, style: Style)
    requires Chunked(f.caption, 0)
    ensures OnField(g, s, f, style).pen.blankPending == s.pen.blankPending
  {
    hide EmitRun, FieldCols, HasBg, Luma;
    var s1 := ToMargin(Deepened(s, style.depth));
    if f.kind == TextField {
      var hasBg := HasBg(style.bg);
      var luma := if hasBg then Luma(style.bg) else 255;
      var dark := hasBg && luma < 128;
      var s2 :=
        if dark then Put(g, s1, Fill(s1.pen.x, BarWidth(s1, f), RowHeight(g, s1), true))
        else if hasBg then PaintBg(g, s1, s1.pen.x, BarWidth(s1, f), luma)
        else s1;
      ColsBlank(g, s2, f, 0, 0, hasBg, !dark);
    } else {
      var s2 := OnMark(g, s1, f);
      RunBlank(g, s2, OneSpace(), s2.pen.invert);
      var s3 := EmitRun(g, s2, OneSpace(), s2.pen.invert);
      RunBlank(g, s3, f.caption, s3.pen.invert);
    }
  }
  lemma FlushBlank(g: Page, s: Layout, rows: seq<Row>, widths: seq<nat>)
    requires TableShape(rows, widths)
    ensures TableFlush(g, s, rows, widths).pen.blankPending == s.pen.blankPending
  {
    hide TableFlush;
    if rows == [] || widths == [] {
      FlushOfNothing(s, rows, widths);
    } else {
      FlushWalks(g, s, rows, widths);
    }
  }

  lemma TextBlank(g: Page, s: Layout, t: seq<bv8>, style: Style)
    requires Chunked(t, 0)
    ensures !OnText(g, s, t, style).pen.blankPending
  {
    hide EmitRun, AlignedX, TakesHead, HasBg, Luma;
    RunBlank(g, Styled(g, s, t, style), t, Styled(g, s, t, style).pen.invert);
  }

  lemma TwoBlank(g: Page, s: Layout, t: seq<bv8>, u: seq<bv8>)
    requires Chunked(t, 0) && Chunked(u, 0)
    ensures var s1 := EmitRun(g, s, t, s.pen.invert); EmitRun(g, s1, u, s1.pen.invert).pen.blankPending == s.pen.blankPending
  {
    hide EmitRun;
    RunBlank(g, s, t, s.pen.invert);
    var s1 := EmitRun(g, s, t, s.pen.invert);
    RunBlank(g, s1, u, s1.pen.invert);
  }

  lemma LinkBlank(g: Page, s: Layout, caption: seq<bv8>, target: seq<bv8>, style: Style)
    requires Chunked(caption, 0)
    ensures OnLink(g, s, caption, target, style).pen.blankPending == s.pen.blankPending
  {
    hide EmitRun, Indent, RowHeight;
    RunBlank(g, ToMargin(Deepened(s, style.depth)), caption, s.pen.invert);
  }

  lemma PartialBlank(g: Page, s: Layout, url: seq<bv8>, style: Style)
    requires Chunked(url, 0)
    ensures OnPartial(g, s, url, style).pen.blankPending == s.pen.blankPending
  {
    hide EmitRun, OnLink;
    var s1 := Deepened(s, style.depth);
    var tag := Ascii([0x5B, 0x2B, 0x5D, 0x20]);
    RunBlank(g, s1, tag, s1.pen.invert);
    LinkBlank(g, EmitRun(g, s1, tag, s1.pen.invert), url, url, style);
  }

  lemma ImageBlank(g: Page, s: Layout, alt: seq<bv8>, url: seq<bv8>, style: Style)
    requires Chunked(alt, 0) && Chunked(url, 0)
    ensures OnImage(g, s, alt, url, style).pen.blankPending == s.pen.blankPending
  {
    hide EmitRun;
    TwoBlank(g, Deepened(s, style.depth), Ascii([0x5B, 0x69, 0x6D, 0x67, 0x5D, 0x20]), if alt != [] then alt else url);
  }

  lemma OthersBlank(g: Page, s: Layout, ch: bv32, style: Style)
    ensures OnDivider(g, s, ch, style).pen.blankPending == s.pen.blankPending == OnLineEnd(g, s, style).pen.blankPending
  {
    hide DividerFrom, DividerBytes, RowHeight, RuleWidth;
    var s1 := ToMargin(Deepened(s, style.depth));
    DividerBlank(g, s1, Indent(s1), DividerBytes(ch));
  }

  lemma StepBlank(g: Page, s: Layout, cb: Callback)
    requires WellFormed(cb)
    ensures Step(g, s, cb).pen.blankPending == Swallows(s.pen.blankPending, [cb])
  {
    hide OnText, OnLink, OnDivider, OnField, OnLineEnd, TableFlush, OnImage, OnPartial, OnBlank, Swallows;
    SwallowsOne(s.pen.blankPending, cb);
    match cb
    case Text(t, style) => TextBlank(g, s, t, style);
    case LinkTo(caption, target, style) => LinkBlank(g, s, caption, target, style);
    case Divider(ch, style) => OthersBlank(g, s, ch, style);
    case FieldOf(f, style) => FieldBlank(g, s, f, style);
    case LineEnd(style) => OthersBlank(g, s, 0, style);
    case Table(rows, widths, style) => FlushBlank(g, Deepened(s, style.depth), rows, widths);
    case Image(alt, url, style) => ImageBlank(g, s, alt, url, style);
    case Partial(url, style) => PartialBlank(g, s, url, style);
    case Blank => BlankIs(g, s);
  }

  lemma BlankIs(g: Page, s: Layout)
    ensures OnBlank(g, s).pen.blankPending
  {
  }

  lemma SwallowsOne(before: bool, cb: Callback)
    ensures Swallows(before, [cb]) == if cb.Text? then false else if cb.Blank? then true else before
  {
  }

  lemma {:induction false} RunSwallows(g: Page, s: Layout, cbs: seq<Callback>)
    requires forall i :: 0 <= i < |cbs| ==> WellFormed(cbs[i])
    ensures Run(g, s, cbs).pen.blankPending == Swallows(s.pen.blankPending, cbs)
    decreases |cbs|
  {
    hide Step, WellFormed;
    if cbs != [] {
      StepBlank(g, s, cbs[0]);
      SwallowsOne(s.pen.blankPending, cbs[0]);
      RunSwallows(g, Step(g, s, cbs[0]), cbs[1..]);
    }
  }

  /** A blank line makes a gap of one body row exactly when text has come since the last one, or since the top of the page:
      any number in a row make one gap, and one after nothing but a divider, a table, a link or a field makes none. */
  lemma BlankGapIff(g: Page, cbs: seq<Callback>)
    requires forall i :: 0 <= i < |cbs| ==> WellFormed(cbs[i])
    ensures var s := Run(g, Fresh(), cbs); var b := Step(g, s, Blank);
      && b.log == s.log && b.pen.x == s.pen.x && b.pen.rowOpen == s.pen.rowOpen
      && (b.pen.y == s.pen.y + 13 + g.cfg.leading <==> TextCameLast(cbs)) && (b.pen.y == s.pen.y <==> !TextCameLast(cbs))
  {
    hide Run, Swallows, TextCameLast;
    RunSwallows(g, Fresh(), cbs);
    SwallowsIs(cbs);
  }

  /** Of text and blank lines, text came last. */
  predicate TextCameLast(cbs: seq<Callback>)
    decreases |cbs|
  {
    cbs != [] && var cb := cbs[|cbs| - 1]; cb.Text? || (!cb.Blank? && TextCameLast(cbs[..|cbs| - 1]))
  }

  lemma {:induction false} SwallowsSnoc(before: bool, cbs: seq<Callback>)
    requires cbs != []
    ensures var n := |cbs| - 1;
      Swallows(before, cbs) == if cbs[n].Text? then false else if cbs[n].Blank? then true else Swallows(before, cbs[..n])
    decreases |cbs|
  {
    var n := |cbs| - 1;
    if n > 0 {
      SwallowsSnoc(if cbs[0].Text? then false else if cbs[0].Blank? then true else before, cbs[1..]);
      assert cbs[1..][..n - 1] == cbs[..n][1..] && cbs[1..][n - 1] == cbs[n];
    }
  }

  lemma {:induction false} SwallowsIs(cbs: seq<Callback>)
    ensures Swallows(true, cbs) <==> !TextCameLast(cbs)
    decreases |cbs|
  {
    hide Swallows;
    if cbs != [] {
      SwallowsSnoc(true, cbs);
      SwallowsIs(cbs[..|cbs| - 1]);
    } else {
      NothingSwallows();
    }
  }

  lemma NothingSwallows()
    ensures Swallows(true, [])
  {
  }

  /** Text, a blank line, a divider and another blank line: the second is lost, and what follows stands right under the
      divider. */
  lemma BlankAfterDividerIsLost(g: Page, t: seq<bv8>, ch: bv32, style: Style)
    requires Chunked(t, 0)
    ensures var cbs := [Text(t, style), LineEnd(style), Blank, Divider(ch, style), LineEnd(style)];
      (forall i :: 0 <= i < 5 ==> WellFormed(cbs[i])) && Step(g, Run(g, Fresh(), cbs), Blank) == Run(g, Fresh(), cbs)
  {
    hide Run;
    var cbs := [Text(t, style), LineEnd(style), Blank, Divider(ch, style), LineEnd(style)];
    assert cbs[..4][..3] == cbs[..3] && cbs[..3][2].Blank?;
    assert !TextCameLast(cbs[..3]);
    assert !TextCameLast(cbs[..4]);
    RunSwallows(g, Fresh(), cbs);
    SwallowsIs(cbs);
  }

  // ---- Images and partials --------------------------------------------

  /** An image shows its tag and its alternative text, or its address when there is none, and nothing else. */
  lemma ImageSays(cfg: Config, s: Layout, alt: seq<bv8>, url: seq<bv8>, style: Style)
    requires Chunked(alt, 0) && Chunked(url, 0) && !s.pen.literal
    ensures var name := if |alt| > 0 then alt else url;
      Inked(OnImage(Whole(cfg), s, alt, url, style).log)
      == Inked(s.log) + [[0x5B], [0x69], [0x6D], [0x67], [0x5D]] + Codepoints(name, 0, |name|)
  {
    hide Inked, Codepoints, EmitRun;
    var g, s1 := Whole(cfg), Deepened(s, style.depth);
    var tag := Ascii([0x5B, 0x69, 0x6D, 0x67, 0x5D, 0x20]);
    var name := if |alt| > 0 then alt else url;
    TagIs();
    RunLosesNothing(cfg, s1, tag, s1.pen.invert);
    var s2 := EmitRun(g, s1, tag, s1.pen.invert);
    RunLiteral(g, s1, tag);
    RunLosesNothing(cfg, s2, name, s2.pen.invert);
  }

  /** On a row not yet open it starts at the left edge. */
  lemma ImageStarts(g: Page, s: Layout, alt: seq<bv8>, url: seq<bv8>, style: Style)
    requires Chunked(alt, 0) && Chunked(url, 0) && !s.pen.literal && !s.pen.rowOpen && s.pen.x <= LeftEdge(style.depth) && Seen(g.view, s.pen.y)
    ensures StartsWith(s.log, OnImage(g, s, alt, url, style).log, Mark(ScreenY(g.view, s.pen.y), LeftEdge(style.depth), [0x5B], !s.pen.invert))
  {
    hide Glyphs, Tokens, Seen, ScreenY, EmitRun;
    var s1 := Deepened(s, style.depth);
    var tag := Ascii([0x5B, 0x69, 0x6D, 0x67, 0x5D, 0x20]);
    var name := if alt != [] then alt else url;
    var m := Mark(ScreenY(g.view, s.pen.y), LeftEdge(style.depth), [0x5B], !s.pen.invert);
    TagStarts(g, s1, tag);
    var s2 := EmitRun(g, s1, tag, s1.pen.invert);
    RunLiteral(g, s1, tag);
    RunOnlyAdds(g, s2, name, s2.pen.invert);
    StartStays(s.log, s2.log, EmitRun(g, s2, name, s2.pen.invert).log, m);
  }

  lemma TagStarts(g: Page, s: Layout, t: seq<bv8>)
    requires Chunked(t, 0) && t != [] && t[0] == 0x5B && !s.pen.literal && !s.pen.rowOpen && s.pen.x <= Indent(s) && Seen(g.view, s.pen.y)
    ensures StartsWith(s.log, EmitRun(g, s, t, s.pen.invert).log, Mark(ScreenY(g.view, s.pen.y), Indent(s), [0x5B], !s.pen.invert))
  {
    hide Glyphs, Tokens, Seen, ScreenY;
    assert SeqLen(t[0]) == 1 && ChunkAt(t, 0) == [0x5B];
    RunStarts(g, PullBack(s), t, s.pen.invert);
  }

  lemma RunOnlyAdds(g: Page, s: Layout, t: seq<bv8>, invert: bool)
    requires Chunked(t, 0) && !s.pen.literal
    ensures s.log <= EmitRun(g, s, t, invert).log
  {
    hide Tokens;
    TokensGrow(g, PullBack(s), t, 0, invert);
  }

  /** A partial shows its tag and its address, and the address is a link to itself. */
  lemma PartialSays(cfg: Config, s: Layout, url: seq<bv8>, style: Style)
    requires Chunked(url, 0) && !s.pen.literal
    ensures var b := OnPartial(Whole(cfg), s, url, style);
      && Inked(b.log) == Inked(s.log) + [[0x5B], [0x2B], [0x5D]] + Codepoints(url, 0, |url|)
      && |b.log| > 0 && b.log[|b.log| - 1].shape.Link? && b.log[|b.log| - 1].shape.target == url
  {
    hide Inked, Codepoints, EmitRun, OnLink;
    var g, s1 := Whole(cfg), Deepened(s, style.depth);
    var tag := Ascii([0x5B, 0x2B, 0x5D, 0x20]);
    TagIs();
    RunLosesNothing(cfg, s1, tag, s1.pen.invert);
    var s2 := EmitRun(g, s1, tag, s1.pen.invert);
    RunLiteral(g, s1, tag);
    LinkSays(cfg, s2, url, url, style);
  }

  /** A link shows its caption and records its target. */
  lemma LinkSays(cfg: Config, s: Layout, caption: seq<bv8>, target: seq<bv8>, style: Style)
    requires Chunked(caption, 0) && !s.pen.literal
    ensures var b := OnLink(Whole(cfg), s, caption, target, style);
      && Inked(b.log) == Inked(s.log) + Codepoints(caption, 0, |caption|)
      && |b.log| > 0 && b.log[|b.log| - 1].shape.Link? && b.log[|b.log| - 1].shape.target == target
  {
    hide Inked, Codepoints, EmitRun, Put;
    var g := Whole(cfg);
    var s1 := ToMargin(Deepened(s, style.depth));
    RunLosesNothing(cfg, s1, caption, s1.pen.invert);
    var s2 := EmitRun(g, s1, caption, s1.pen.invert);
    var box := Shape.Link(s1.pen.x, ScreenY(g.view, s1.pen.y), if s2.pen.x > s1.pen.x then s2.pen.x - s1.pen.x else 0, RowHeight(g, s2), target);
    PutInks(cfg, s2, true, box);
    PutLast(cfg, s2, box);
  }

  /** A link whose caption fits its row is boxed exactly around it. */
  lemma LinkBoxFits(g: Page, s: Layout, caption: seq<bv8>, target: seq<bv8>, style: Style)
    requires Chunked(caption, 0) && !s.pen.literal && Seen(g.view, s.pen.y)
    requires var x := if s.pen.rowOpen then s.pen.x else LeftEdge(style.depth);
      LeftEdge(style.depth) <= x && x + RunWidth(s, caption) <= 398
    ensures var b := OnLink(g, s, caption, target, style); var y := ScreenY(g.view, s.pen.y);
      var x := if s.pen.rowOpen then s.pen.x else LeftEdge(style.depth);
      && |b.log| > 0 && b.log[|b.log| - 1] == Draw(y, RowHeight(g, s), Shape.Link(x, y, RunWidth(s, caption), RowHeight(g, s), target))
      && b.pen.x == x + RunWidth(s, caption) && b.pen.y == s.pen.y
  {
    hide Glyphs, Tokens, Seen, ScreenY, Pace, Cells, ChunkCount;
    var s1 := ToMargin(Deepened(s, style.depth));
    assert Indent(s1) == LeftEdge(style.depth);
    SamePaceDeep(s, style.depth);
    SamePace(Deepened(s, style.depth), s1);
    CellsAreChunks(caption);
    ProseTypes(g, s1, caption, 0, s1.pen.invert);
    hide Indent;
  }

  lemma SamePaceDeep(s: Layout, depth: nat)
    ensures Pace(Deepened(s, depth)) == Pace(s)
  {
  }

  lemma PutLast(cfg: Config, s: Layout, shape: Shape)
    ensures var b := Put(Whole(cfg), s, shape); |b.log| == |s.log| + 1 && b.log[|s.log|].shape == shape
  {
  }

  lemma RunLiteral(g: Page, s: Layout, t: seq<bv8>)
    requires Chunked(t, 0)
    ensures EmitRun(g, s, t, s.pen.invert).pen.literal == s.pen.literal
  {
    hide EmitRun;
    RunWalks(g, s, t, s.pen.invert);
  }

  /** The bytes of a word, one by one. */
  function Singles(word: seq<bv8>): (r: seq<seq<bv8>>)
    ensures |r| == |word|
  {
    seq(|word|, (i: nat) requires i < |word| => [word[i]])
  }

  // A word of ASCII and a space after it.
  lemma {:induction false} TagPoints(t: seq<bv8>, k: nat, word: seq<bv8>)
    requires k <= |word| && t == word + [0x20] && forall j :: 0 <= j < |word| ==> word[j] < 0x80 && !Blankish(word[j])
    ensures Codepoints(t, k, |t|) == Singles(word[k..])
    decreases |word| - k
  {
    hide Codepoints;
    OnePoint(t, k);
    if k < |word| {
      TagPoints(t, k + 1, word);
      assert Singles(word[k..]) == [[word[k]]] + Singles(word[k + 1..]);
    } else {
      NoCodepoints(t, k + 1);
      assert Singles(word[k..]) == [];
    }
  }

  lemma OnePoint(t: seq<bv8>, k: nat)
    requires k < |t| && t[k] < 0x80
    ensures Codepoints(t, k, |t|) == (if Blankish(t[k]) then [] else [[t[k]]]) + Codepoints(t, k + 1, |t|)
  {
    assert SeqLen(t[k]) == 1 && t[k..k + 1] == [t[k]];
  }

  lemma TagIs()
    ensures Codepoints([0x5B, 0x69, 0x6D, 0x67, 0x5D, 0x20], 0, 6) == [[0x5B], [0x69], [0x6D], [0x67], [0x5D]]
    ensures Codepoints([0x5B, 0x2B, 0x5D, 0x20], 0, 4) == [[0x5B], [0x2B], [0x5D]]
  {
    hide Codepoints;
    var image: seq<bv8> := [0x5B, 0x69, 0x6D, 0x67, 0x5D];
    var part: seq<bv8> := [0x5B, 0x2B, 0x5D];
    TagPoints(image + [0x20], 0, image);
    TagPoints(part + [0x20], 0, part);
    assert Singles(image[0..]) == [[0x5B], [0x69], [0x6D], [0x67], [0x5D]];
    assert Singles(part[0..]) == [[0x5B], [0x2B], [0x5D]];
    assert image + [0x20] == [0x5B, 0x69, 0x6D, 0x67, 0x5D, 0x20] && part + [0x20] == [0x5B, 0x2B, 0x5D, 0x20];
  }

  // ---- Shades ---------------------------------------------------------

  predicate Byte3(c: Color) {
    c.r < 256 && c.g < 256 && c.b < 256
  }

  function Weighed(c: Color): nat {
    299 * c.r + 587 * c.g + 114 * c.b
  }

  lemma LumaIs(c: Color)
    requires Byte3(c)
    ensures Weighed(c) <= 255000
    ensures Luma(c) == if c.isDefault || !c.isValid then 255 else Weighed(c) / 1000
  {
    Thousandths(Weighed(c), 255000);
    Modulo(Weighed(c) / 1000);
  }

  lemma Modulo(n: nat)
    requires n < 256
    ensures n % 256 == n
  {
  }

  lemma Thousandths(m: nat, n: nat)
    requires n <= 255000
    ensures n / 1000 <= 255 && (m <= n ==> m / 1000 <= n / 1000)
  {
  }

  /** Brightness runs from black to white: more of any primary never makes a colour darker, and no colour at all is white. */
  lemma LumaOrders(a: Color, b: Color)
    requires Byte3(a) && Byte3(b)
    ensures HasBg(a) <==> a.isValid && !a.isDefault
    ensures !HasBg(a) ==> Luma(a) == 255
    ensures HasBg(a) && HasBg(b) && a.r <= b.r && a.g <= b.g && a.b <= b.b ==> Luma(a) <= Luma(b) <= 255
  {
    hide Luma;
    LumaIs(a);
    LumaIs(b);
    Thousandths(Weighed(a), Weighed(b));
  }

  /** Green counts for most of it and blue for least. */
  lemma Primaries()
    ensures Luma(Color(false, true, 0, 0, 0)) == 0 && Luma(Color(false, true, 255, 255, 255)) == 255
    ensures Luma(Color(false, true, 255, 0, 0)) == 76 && Luma(Color(false, true, 0, 255, 0)) == 149
    ensures Luma(Color(false, true, 0, 0, 255)) == 29
  {
  }
}
