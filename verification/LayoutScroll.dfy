// Scrolling never changes layout: the windowed draw log is the whole page's, filtered and shifted.
module LayoutScroll {
  import opened Geometry
  import opened Utf8
  import opened Chunks
  import opened CellWalk
  import opened TableFit
  import opened LayoutTypes
  import opened LayoutSpec
  import opened LayoutWalk
  import opened LayoutTables
  import opened LayoutColumns

  // ---- What a window shows of a page ----------------------------------

  function ShiftShape(shape: Shape, scroll: U16): Shape {
    match shape
    case Link(x, y, w, h, target) => Shape.Link(x, Wrap16(Wrap16(y) - scroll), w, h, target)
    case _ => shape
  }

  /** The page's draws on rows inside the window, moved into panel coordinates, in order. */
  function Windowed(log: seq<Draw>, scroll: U16): seq<Draw>
    decreases |log|
  {
    if log == [] then []
    else
      var d := log[|log| - 1];
      Windowed(log[..|log| - 1], scroll)
      + if Seen(Window(scroll), d.row) then [Draw(Wrap16(Wrap16(d.row) - scroll), d.h, ShiftShape(d.shape, scroll))] else []
  }

  /** The page's rows fit the sixteen-bit row counter. */
  ghost predicate ShortPage(log: seq<Draw>) {
    forall i :: 0 <= i < |log| ==> log[i].row <= 0xFFFF
  }

  /** w is v with some fills more. */
  predicate ShowsAll(w: seq<Draw>, v: seq<Draw>)
    decreases |w|
  {
    if w == [] then v == []
    else
      var n := |w| - 1;
      || (v != [] && v[|v| - 1] == w[n] && ShowsAll(w[..n], v[..|v| - 1]))
      || (w[n].shape.Fill? && ShowsAll(w[..n], v))
  }

  /** The windowed log is the page's seen through the window. Of a frame before it is cut it shows all and
      perhaps more: the lines between a table's columns, where a wrap has pushed them out of sight. */
  predicate SimLog(ga: Page, scroll: U16, w: seq<Draw>, a: seq<Draw>) {
    ShowsAll(w, Windowed(a, scroll)) && (ga.view == All ==> w == Windowed(a, scroll))
  }

  /** The windowed state and the page's agree on everything but the log. */
  predicate Sim(ga: Page, scroll: U16, w: Layout, a: Layout) {
    Keeps(ga, scroll) && w.pen == a.pen && SimLog(ga, scroll, w.log, a.log)
  }

  /** A page that keeps every draw: the whole page, or a frame before it is cut to the panel. */
  predicate Keeps(ga: Page, scroll: U16) {
    ga.view == All || ga.view == Tall(scroll)
  }

  // ---- Primitives -----------------------------------------------------

  lemma WindowedSnoc(log: seq<Draw>, d: Draw, scroll: U16)
    ensures Windowed(log + [d], scroll) == Windowed(log, scroll)
         + if Seen(Window(scroll), d.row) then [Draw(Wrap16(Wrap16(d.row) - scroll), d.h, ShiftShape(d.shape, scroll))] else []
  {
    assert (log + [d])[..|log|] == log;
  }

  lemma ShowsMore(w: seq<Draw>, v: seq<Draw>, d: Draw)
    requires ShowsAll(w, v)
    ensures ShowsAll(w + [d], v + [d]) && (d.shape.Fill? ==> ShowsAll(w + [d], v))
  {
    assert (w + [d])[..|w|] == w && (v + [d])[..|v|] == v;
  }

  lemma {:induction false} ShowsItself(w: seq<Draw>)
    ensures ShowsAll(w, w)
    decreases |w|
  {
    if w != [] {
      ShowsItself(w[..|w| - 1]);
    }
  }

  lemma StartSim(ga: Page, scroll: U16, pen: Pen)
    requires Keeps(ga, scroll)
    ensures Sim(ga, scroll, Layout(pen, []), Layout(pen, []))
  {
  }

  lemma PutSim(ga: Page, scroll: U16, w: Layout, a: Layout, shape: Shape)
    requires Sim(ga, scroll, w, a)
    ensures Sim(ga, scroll, Put(In(ga.cfg, scroll), w, ShiftShape(shape, scroll)), Put(ga, a, shape))
  {
    hide Windowed, Wrap16, ShiftShape, ShowsAll;
    var d := Draw(a.pen.y, RowHeight(ga, a), shape);
    WindowedSnoc(a.log, d, scroll);
    assert RowHeight(In(ga.cfg, scroll), w) == d.h;
    assert Put(ga, a, shape).log == a.log + [d];
    var shown := Draw(Wrap16(Wrap16(d.row) - scroll), d.h, ShiftShape(d.shape, scroll));
    ShowsMore(w.log, Windowed(a.log, scroll), shown);
    assert Windowed(a.log, scroll) + [] == Windowed(a.log, scroll);
  }

  /** Where everything is drawn, drawing anyway is drawing. */
  lemma SeesAll(g: Page, s: Layout, shape: Shape)
    requires !g.view.Window?
    ensures PutAnyway(g, s, shape) == Put(g, s, shape)
  {
  }

  lemma AnywaySim(ga: Page, scroll: U16, w: Layout, a: Layout, shape: Shape)
    requires Sim(ga, scroll, w, a) && shape.Fill? && (ga.view == All ==> Seen(Window(scroll), a.pen.y))
    ensures Sim(ga, scroll, PutAnyway(In(ga.cfg, scroll), w, shape), PutAnyway(ga, a, shape))
  {
    hide Windowed, Wrap16, ShowsAll;
    var d := Draw(a.pen.y, RowHeight(ga, a), shape);
    WindowedSnoc(a.log, d, scroll);
    assert RowHeight(In(ga.cfg, scroll), w) == d.h;
    assert PutAnyway(ga, a, shape).log == a.log + [d];
    ShowsMore(w.log, Windowed(a.log, scroll), Draw(Wrap16(Wrap16(d.row) - scroll), d.h, shape));
    assert Windowed(a.log, scroll) + [] == Windowed(a.log, scroll);
  }

  // Every shape but a link box is the same in both coordinate systems.
  lemma PutSame(ga: Page, scroll: U16, w: Layout, a: Layout, when: bool, shape: Shape)
    requires Sim(ga, scroll, w, a) && !shape.Link?
    ensures Sim(ga, scroll, PutIf(In(ga.cfg, scroll), w, when, shape), PutIf(ga, a, when, shape))
    ensures Sim(ga, scroll, Put(In(ga.cfg, scroll), w, shape), Put(ga, a, shape))
  {
    PutSim(ga, scroll, w, a, shape);
  }

  lemma PaintSim(ga: Page, scroll: U16, w: Layout, a: Layout, x: int, width: int, luma: nat)
    requires Sim(ga, scroll, w, a)
    ensures Sim(ga, scroll, PaintBg(In(ga.cfg, scroll), w, x, width, luma), PaintBg(ga, a, x, width, luma))
  {
    hide SimLog, Put;
    PutSame(ga, scroll, w, a, true, Texture(x, width, RowHeight(ga, a), luma));
    PutSame(ga, scroll, w, a, luma < 128, Fill(x, width, RowHeight(ga, a), true));
  }

  lemma GlyphSim(ga: Page, scroll: U16, w: Layout, a: Layout, bytes: seq<bv8>, invert: bool)
    requires Sim(ga, scroll, w, a)
    ensures Sim(ga, scroll, PutGlyph(In(ga.cfg, scroll), w, bytes, invert), PutGlyph(ga, a, bytes, invert))
  {
    PutSame(ga, scroll, w, a, true, Glyph(FaceOf(ga, a, bytes), a.pen.x, bytes, !invert));
  }

  // ---- Runs -----------------------------------------------------------

  lemma CellSim(ga: Page, scroll: U16, w: Layout, a: Layout, bytes: seq<bv8>, invert: bool)
    requires Sim(ga, scroll, w, a)
    ensures Sim(ga, scroll, CellOf(In(ga.cfg, scroll), w, bytes, invert), CellOf(ga, a, bytes, invert))
  {
    hide SimLog, Windowed, Seen, ScreenY;
    var gw := In(ga.cfg, scroll);
    var blank := |bytes| == 1 && Blankish(bytes[0]);
    PaintSim(ga, scroll, w, a, a.pen.x, Pace(a), a.pen.bgLuma);
    PutSame(ga, scroll, w, a, true, Fill(a.pen.x, Pace(a), RowHeight(ga, a), invert));
    PutSame(ga, scroll, w, a, invert, Fill(a.pen.x, Pace(a), RowHeight(ga, a), true));
    var w1 := if w.pen.hasBg then (if blank then PaintBg(gw, w, w.pen.x, Pace(w), w.pen.bgLuma) else Put(gw, w, Fill(w.pen.x, Pace(w), RowHeight(gw, w), invert))) else PutIf(gw, w, invert, Fill(w.pen.x, Pace(w), RowHeight(gw, w), true));
    var a1 := if a.pen.hasBg then (if blank then PaintBg(ga, a, a.pen.x, Pace(a), a.pen.bgLuma) else Put(ga, a, Fill(a.pen.x, Pace(a), RowHeight(ga, a), invert))) else PutIf(ga, a, invert, Fill(a.pen.x, Pace(a), RowHeight(ga, a), true));
    assert Sim(ga, scroll, w1, a1);
    GlyphSim(ga, scroll, w1, a1, bytes, invert);
    var w2 := if blank then w1 else PutGlyph(gw, w1, bytes, invert);
    var a2 := if blank then a1 else PutGlyph(ga, a1, bytes, invert);
    PutSame(ga, scroll, w2, a2, a2.pen.underline, Rule(a.pen.x, RowHeight(ga, a) - 2, Pace(a), !invert));
  }

  lemma {:induction false} WordSim(ga: Page, scroll: U16, w: Layout, a: Layout, t: seq<bv8>, k: nat, e: nat, invert: bool)
    requires Sim(ga, scroll, w, a) && e <= |t|
    ensures Sim(ga, scroll, Word(In(ga.cfg, scroll), w, t, k, e, invert), Word(ga, a, t, k, e, invert))
    decreases e - k
  {
    hide SimLog, Windowed, CellOf;
    if k < e {
      CellSim(ga, scroll, w, a, ChunkAt(t, k), invert);
      WordSim(ga, scroll, Moved(CellOf(In(ga.cfg, scroll), w, ChunkAt(t, k), invert), Pace(w)),
              Moved(CellOf(ga, a, ChunkAt(t, k), invert), Pace(a)), t, k + SeqLen(t[k]), e, invert);
    }
  }

  lemma WrapSim(ga: Page, scroll: U16, w: Layout, a: Layout)
    requires Sim(ga, scroll, w, a)
    ensures Sim(ga, scroll, WrapIfNeeded(In(ga.cfg, scroll), w, Pace(w)), WrapIfNeeded(ga, a, Pace(a)))
    ensures Pace(w) == Pace(a)
    ensures Pace(WrapIfNeeded(In(ga.cfg, scroll), w, Pace(w))) == Pace(WrapIfNeeded(ga, a, Pace(a)))
  {
    hide SimLog, Windowed;
  }

  lemma MovedSim(ga: Page, scroll: U16, w: Layout, a: Layout, width: nat)
    requires Sim(ga, scroll, w, a)
    ensures Sim(ga, scroll, Moved(w, width), Moved(a, width))
  {
  }

  lemma {:induction false} LongWordSim(ga: Page, scroll: U16, w: Layout, a: Layout, t: seq<bv8>, k: nat, e: nat, invert: bool)
    requires Sim(ga, scroll, w, a) && e <= |t|
    ensures Sim(ga, scroll, LongWord(In(ga.cfg, scroll), w, t, k, e, invert), LongWord(ga, a, t, k, e, invert))
    decreases e - k
  {
    hide SimLog, Windowed, PutGlyph, WrapIfNeeded, Pace, Moved;
    if k < e {
      WrapSim(ga, scroll, w, a);
      var w1, a1 := WrapIfNeeded(In(ga.cfg, scroll), w, Pace(w)), WrapIfNeeded(ga, a, Pace(a));
      GlyphSim(ga, scroll, w1, a1, ChunkAt(t, k), invert);
      MovedSim(ga, scroll, PutGlyph(In(ga.cfg, scroll), w1, ChunkAt(t, k), invert), PutGlyph(ga, a1, ChunkAt(t, k), invert), Pace(w1));
      LongWordSim(ga, scroll, Moved(PutGlyph(In(ga.cfg, scroll), w1, ChunkAt(t, k), invert), Pace(w1)),
                  Moved(PutGlyph(ga, a1, ChunkAt(t, k), invert), Pace(a1)), t, k + SeqLen(t[k]), e, invert);
    }
  }

  lemma LeadSim(ga: Page, scroll: U16, w: Layout, a: Layout, leadW: nat, invert: bool)
    requires Sim(ga, scroll, w, a)
    ensures Sim(ga, scroll, Lead(In(ga.cfg, scroll), w, leadW, invert), Lead(ga, a, leadW, invert))
  {
    hide SimLog, Windowed, PaintBg;
    var gw := In(ga.cfg, scroll);
    PaintSim(ga, scroll, w, a, a.pen.x, leadW, a.pen.bgLuma);
    var w1 := if w.pen.hasBg then PaintBg(gw, w, w.pen.x, leadW, w.pen.bgLuma) else w;
    var a1 := if a.pen.hasBg then PaintBg(ga, a, a.pen.x, leadW, a.pen.bgLuma) else a;
    PutSame(ga, scroll, w1, a1, a1.pen.underline, Rule(a.pen.x, RowHeight(ga, a) - 2, leadW, !invert));
  }

  lemma TokenSim(ga: Page, scroll: U16, w: Layout, a: Layout, t: seq<bv8>, i: nat, sp: nat, e: nat, invert: bool)
    requires Sim(ga, scroll, w, a) && i <= sp <= e <= |t|
    ensures Sim(ga, scroll, Token(In(ga.cfg, scroll), w, t, i, sp, e, invert), Token(ga, a, t, i, sp, e, invert))
  {
    hide SimLog, Windowed, Word, LongWord, Lead;
    var leadW := LeadWidth(a, i, sp);
    LongWordSim(ga, scroll, w, a, t, i, e, invert);
    LeadSim(ga, scroll, w, a, leadW, invert);
    WordSim(ga, scroll, Newline(In(ga.cfg, scroll), w), Newline(ga, a), t, sp, e, invert);
    WordSim(ga, scroll, Lead(In(ga.cfg, scroll), w, leadW, invert), Lead(ga, a, leadW, invert), t, sp, e, invert);
    WordSim(ga, scroll, w, a, t, sp, e, invert);
  }

  lemma {:induction false} TokensSim(ga: Page, scroll: U16, w: Layout, a: Layout, t: seq<bv8>, i: nat, invert: bool)
    requires Sim(ga, scroll, w, a) && Chunked(t, i)
    ensures Sim(ga, scroll, Tokens(In(ga.cfg, scroll), w, t, i, invert), Tokens(ga, a, t, i, invert))
    decreases |t| - i
  {
    hide SimLog, Windowed, Token;
    if i < |t| {
      TokenBounds(t, i);
      var sp := SkipBlankish(t, i);
      var e := WordEnd(t, sp);
      TokenSim(ga, scroll, w, a, t, i, sp, e, invert);
      TokensSim(ga, scroll, Token(In(ga.cfg, scroll), w, t, i, sp, e, invert), Token(ga, a, t, i, sp, e, invert), t, e, invert);
    }
  }

  lemma {:induction false} LiteralSim(ga: Page, scroll: U16, w: Layout, a: Layout, t: seq<bv8>, k: nat, invert: bool)
    requires Sim(ga, scroll, w, a)
    ensures Sim(ga, scroll, LiteralFrom(In(ga.cfg, scroll), w, t, k, invert), LiteralFrom(ga, a, t, k, invert))
    decreases |t| - k
  {
    hide SimLog, Windowed, Seen, ScreenY;
    var gw := In(ga.cfg, scroll);
    if k < |t| {
      if a.pen.x + FONT_ADVANCE > RIGHT {
        var fill := Fill(RIGHT - FONT_ADVANCE, FONT_ADVANCE, RowHeight(ga, a), invert);
        PutSame(ga, scroll, w, a, true, fill);
        PutSame(ga, scroll, Put(gw, w, fill), Put(ga, a, fill), true, Symbol(RIGHT - FONT_ADVANCE, [0xC2, 0xBB], !invert));
      } else {
        var fill := Fill(a.pen.x, FONT_ADVANCE, RowHeight(ga, a), true);
        PutSame(ga, scroll, w, a, invert, fill);
        var w1, a1 := PutIf(gw, w, invert, fill), PutIf(ga, a, invert, fill);
        var glyph := Glyph(Body, a.pen.x, ChunkAt(t, k), !invert);
        PutSame(ga, scroll, w1, a1, true, glyph);
        LiteralSim(ga, scroll, Moved(Put(gw, w1, glyph), FONT_ADVANCE), Moved(Put(ga, a1, glyph), FONT_ADVANCE),
                   t, k + SeqLen(t[k]), invert);
      }
    }
  }

  lemma RunSim(ga: Page, scroll: U16, w: Layout, a: Layout, t: seq<bv8>, invert: bool)
    requires Sim(ga, scroll, w, a) && Chunked(t, 0)
    ensures Sim(ga, scroll, EmitRun(In(ga.cfg, scroll), w, t, invert), EmitRun(ga, a, t, invert))
  {
    hide SimLog, Windowed, Tokens, LiteralFrom;
    LiteralSim(ga, scroll, ToMargin(w), ToMargin(a), t, 0, invert);
    TokensSim(ga, scroll, PullBack(w), PullBack(a), t, 0, invert);
  }

  // ---- Callbacks other than tables ------------------------------------

  lemma {:induction false} AllInSame(ga: Page, scroll: U16, face: Face, t: seq<bv8>, k: nat)
    ensures AllIn(In(ga.cfg, scroll), face, t, k) == AllIn(ga, face, t, k)
    decreases |t| - k
  {
    if k < |t| {
      AllInSame(ga, scroll, face, t, k + SeqLen(t[k]));
    }
  }

  lemma HeadedSame(ga: Page, scroll: U16, w: Layout, a: Layout, t: seq<bv8>, style: Style)
    requires w.pen == a.pen
    ensures Headed(In(ga.cfg, scroll), w, t, style) == Layout(Headed(ga, a, t, style).pen, w.log)
    ensures Headed(ga, a, t, style).log == a.log
  {
    AllInSame(ga, scroll, HeadFace(HeadWanted(style.depth)), t, 0);
    assert TakesHead(In(ga.cfg, scroll), a.pen.rowOpen, t, style) == TakesHead(ga, a.pen.rowOpen, t, style);
    hide TakesHead, FaceHeight, HeadFace, HeadWanted;
  }

  lemma AlignedSame(w: Layout, a: Layout, t: seq<bv8>, align: Align)
    requires w.pen == a.pen
    ensures Aligned(w, t, align) == Layout(Aligned(a, t, align).pen, w.log) && Aligned(a, t, align).log == a.log
  {
    hide Cells, Wrap16;
  }

  // Choosing a run's style draws nothing and never looks at the window.
  lemma StyledSame(ga: Page, scroll: U16, w: Layout, a: Layout, t: seq<bv8>, style: Style)
    requires w.pen == a.pen
    ensures Styled(In(ga.cfg, scroll), w, t, style) == Layout(Styled(ga, a, t, style).pen, w.log)
    ensures Styled(ga, a, t, style).log == a.log
  {
    hide Headed, Aligned, Luma, HasBg;
    var w0 := w.(pen := w.pen.(depth := style.depth, blankPending := false, literal := style.literal));
    var a0 := a.(pen := a.pen.(depth := style.depth, blankPending := false, literal := style.literal));
    AlignedSame(ToMargin(w0), ToMargin(a0), t, style.align);
    var w2, a2 := Aligned(ToMargin(w0), t, style.align), Aligned(ToMargin(a0), t, style.align);
    var w3 := w2.(pen := w2.pen.(hasBg := HasBg(style.bg), bgLuma := Luma(style.bg)));
    var a3 := a2.(pen := a2.pen.(hasBg := HasBg(style.bg), bgLuma := Luma(style.bg)));
    HeadedSame(ga, scroll, w3, a3, t, style);
  }

  lemma TextSim(ga: Page, scroll: U16, w: Layout, a: Layout, t: seq<bv8>, style: Style)
    requires Sim(ga, scroll, w, a) && Chunked(t, 0)
    ensures Sim(ga, scroll, OnText(In(ga.cfg, scroll), w, t, style), OnText(ga, a, t, style))
  {
    hide SimLog, Windowed, EmitRun, Styled;
    StyledSame(ga, scroll, w, a, t, style);
    var w1, a1 := Styled(In(ga.cfg, scroll), w, t, style), Styled(ga, a, t, style);
    RunSim(ga, scroll, w1, a1, t, a1.pen.invert);
  }

  lemma LinkSim(ga: Page, scroll: U16, w: Layout, a: Layout, caption: seq<bv8>, target: seq<bv8>, style: Style)
    requires Sim(ga, scroll, w, a) && Chunked(caption, 0)
    ensures Sim(ga, scroll, OnLink(In(ga.cfg, scroll), w, caption, target, style), OnLink(ga, a, caption, target, style))
  {
    hide SimLog, Windowed, EmitRun;
    var gw := In(ga.cfg, scroll);
    var w1, a1 := ToMargin(Deepened(w, style.depth)), ToMargin(Deepened(a, style.depth));
    assert Sim(ga, scroll, w1, a1);
    RunSim(ga, scroll, w1, a1, caption, a1.pen.invert);
    var w2, a2 := EmitRun(gw, w1, caption, w1.pen.invert), EmitRun(ga, a1, caption, a1.pen.invert);
    PutSim(ga, scroll, w2, a2,
           Shape.Link(a1.pen.x, a1.pen.y, if a2.pen.x > a1.pen.x then a2.pen.x - a1.pen.x else 0, RowHeight(ga, a2), target));
  }

  lemma {:induction false} DividerSim(ga: Page, scroll: U16, w: Layout, a: Layout, x: nat, bytes: seq<bv8>)
    requires Sim(ga, scroll, w, a)
    ensures Sim(ga, scroll, DividerFrom(In(ga.cfg, scroll), w, x, bytes), DividerFrom(ga, a, x, bytes))
    decreases RIGHT - x
  {
    hide SimLog, Windowed, Seen, ScreenY;
    if x + FONT_ADVANCE <= RIGHT {
      PutSame(ga, scroll, w, a, true, Symbol(x, bytes, true));
      DividerSim(ga, scroll, Put(In(ga.cfg, scroll), w, Symbol(x, bytes, true)), Put(ga, a, Symbol(x, bytes, true)),
                 x + FONT_ADVANCE, bytes);
    }
  }

  lemma FieldCellSim(ga: Page, scroll: U16, w: Layout, a: Layout, f: Field, vk: nat, hasBg: bool, ink: bool)
    requires Sim(ga, scroll, w, a)
    ensures Sim(ga, scroll, FieldCell(In(ga.cfg, scroll), w, f, vk, hasBg, ink), FieldCell(ga, a, f, vk, hasBg, ink))
  {
    if vk < |f.value| {
      PutSame(ga, scroll, w, a, true, Symbol(a.pen.x, if f.masked then [0x2A] else ChunkAt(f.value, vk), ink));
    } else {
      PutSame(ga, scroll, w, a, !hasBg, Symbol(a.pen.x, [0x5F], true));
    }
  }

  lemma {:induction false} FieldColsSim(ga: Page, scroll: U16, w: Layout, a: Layout, f: Field, col: nat, vk: nat, hasBg: bool, ink: bool)
    requires Sim(ga, scroll, w, a)
    ensures Sim(ga, scroll, FieldCols(In(ga.cfg, scroll), w, f, col, vk, hasBg, ink), FieldCols(ga, a, f, col, vk, hasBg, ink))
    decreases FieldWidth(f) - col
  {
    hide SimLog, Windowed, FieldCell;
    if col < FieldWidth(f) && a.pen.x + FONT_ADVANCE <= RIGHT {
      FieldCellSim(ga, scroll, w, a, f, vk, hasBg, ink);
      FieldColsSim(ga, scroll, Moved(FieldCell(In(ga.cfg, scroll), w, f, vk, hasBg, ink), FONT_ADVANCE),
                   Moved(FieldCell(ga, a, f, vk, hasBg, ink), FONT_ADVANCE),
                   f, col + 1, if vk < |f.value| then vk + SeqLen(f.value[vk]) else vk, hasBg, ink);
    }
  }

  lemma TextFieldSim(ga: Page, scroll: U16, w: Layout, a: Layout, f: Field, style: Style)
    requires Sim(ga, scroll, w, a)
    ensures Sim(ga, scroll, OnTextField(In(ga.cfg, scroll), w, f, style), OnTextField(ga, a, f, style))
  {
    hide SimLog, Windowed, Seen, ScreenY, FieldCols, PaintBg;
    var gw := In(ga.cfg, scroll);
    var hasBg := HasBg(style.bg);
    var luma := if hasBg then Luma(style.bg) else 255;
    var bar := Fill(a.pen.x, BarWidth(a, f), RowHeight(ga, a), true);
    PutSame(ga, scroll, w, a, true, bar);
    PaintSim(ga, scroll, w, a, a.pen.x, BarWidth(a, f), luma);
    var dark := hasBg && luma < 128;
    var w1 := if dark then Put(gw, w, bar) else if hasBg then PaintBg(gw, w, w.pen.x, BarWidth(w, f), luma) else w;
    var a1 := if dark then Put(ga, a, bar) else if hasBg then PaintBg(ga, a, a.pen.x, BarWidth(a, f), luma) else a;
    FieldColsSim(ga, scroll, w1, a1, f, 0, 0, hasBg, !dark);
  }

  lemma MarkSim(ga: Page, scroll: U16, w: Layout, a: Layout, f: Field)
    requires Sim(ga, scroll, w, a)
    ensures Sim(ga, scroll, OnMark(In(ga.cfg, scroll), w, f), OnMark(ga, a, f))
  {
    hide SimLog, Windowed, Seen, ScreenY;
    if f.kind == Radio {
      PutSame(ga, scroll, w, a, true, Symbol(a.pen.x, if f.prechecked then [0xE2, 0x97, 0x8F] else [0xE2, 0x97, 0x8B], !a.pen.invert));
    } else {
      var box := Symbol(a.pen.x, [0xE2, 0x96, 0xA1], !a.pen.invert);
      PutSame(ga, scroll, w, a, true, box);
      PutSame(ga, scroll, Put(In(ga.cfg, scroll), w, box), Put(ga, a, box), f.prechecked,
              Symbol(a.pen.x, [0xE2, 0x9C, 0x93], !a.pen.invert));
    }
  }

  lemma FieldSim(ga: Page, scroll: U16, w: Layout, a: Layout, f: Field, style: Style)
    requires Sim(ga, scroll, w, a) && Chunked(f.caption, 0)
    ensures Sim(ga, scroll, OnField(In(ga.cfg, scroll), w, f, style), OnField(ga, a, f, style))
  {
    hide SimLog, Windowed, EmitRun, OnTextField, OnMark;
    var gw := In(ga.cfg, scroll);
    var w1, a1 := ToMargin(Deepened(w, style.depth)), ToMargin(Deepened(a, style.depth));
    assert Sim(ga, scroll, w1, a1);
    if f.kind == TextField {
      TextFieldSim(ga, scroll, w1, a1, f, style);
    } else {
      MarkSim(ga, scroll, w1, a1, f);
      var w2, a2 := OnMark(gw, w1, f), OnMark(ga, a1, f);
      RunSim(ga, scroll, w2, a2, OneSpace(), a2.pen.invert);
      var w3, a3 := EmitRun(gw, w2, OneSpace(), w2.pen.invert), EmitRun(ga, a2, OneSpace(), a2.pen.invert);
      RunSim(ga, scroll, w3, a3, f.caption, a3.pen.invert);
    }
  }

  // Closing a row reads only the pen.
  lemma ClosedSame(ga: Page, scroll: U16, w: Layout, a: Layout, style: Style, head: nat)
    requires Sim(ga, scroll, w, a)
    ensures Sim(ga, scroll, Closed(In(ga.cfg, scroll), w, style, head), Closed(ga, a, style, head))
  {
    hide SimLog, Windowed;
  }

  lemma LineEndSim(ga: Page, scroll: U16, w: Layout, a: Layout, style: Style)
    requires Sim(ga, scroll, w, a)
    ensures Sim(ga, scroll, OnLineEnd(In(ga.cfg, scroll), w, style), OnLineEnd(ga, a, style))
  {
    hide SimLog, Windowed, PutIf, Closed;
    var w1, a1 := Deepened(w, style.depth), Deepened(a, style.depth);
    assert Sim(ga, scroll, w1, a1);
    var rule := Rule(Indent(a1), RowHeight(ga, a1) - 1, RuleWidth(a1, style), true);
    var when := a1.pen.headRule && a1.pen.rowOpen;
    PutSame(ga, scroll, w1, a1, when, rule);
    ClosedSame(ga, scroll, PutIf(In(ga.cfg, scroll), w1, when, rule), PutIf(ga, a1, when, rule), style, a.pen.head);
  }

  // ---- Rows of the page -----------------------------------------------

  /** `b` is `a` with only the pen moved along its row and draws added on that row. */
  predicate OnRow(a: Layout, b: Layout) {
    && b.pen == a.pen.(x := b.pen.x, rowOpen := b.pen.rowOpen)
    && |a.log| <= |b.log| && b.log[..|a.log|] == a.log
    && forall i :: |a.log| <= i < |b.log| ==> b.log[i].row == a.pen.y
  }

  lemma OnRowTrans(a: Layout, b: Layout, c: Layout)
    requires OnRow(a, b) && OnRow(b, c)
    ensures OnRow(a, c)
  {
    assert c.log[..|a.log|] == c.log[..|b.log|][..|a.log|];
    forall i | |a.log| <= i < |c.log|
      ensures c.log[i].row == a.pen.y
    {
      if i < |b.log| {
        assert c.log[..|b.log|][i] == b.log[i];
      }
    }
  }

  lemma {:induction false} UnseenAdds(old_: seq<Draw>, new_: seq<Draw>, y: nat, scroll: U16)
    requires |old_| <= |new_| && new_[..|old_|] == old_
    requires forall i :: |old_| <= i < |new_| ==> new_[i].row == y
    requires !Seen(Window(scroll), y)
    ensures Windowed(new_, scroll) == Windowed(old_, scroll)
    decreases |new_|
  {
    if |new_| > |old_| {
      var n := |new_| - 1;
      assert new_[..n][..|old_|] == old_;
      UnseenAdds(old_, new_[..n], y, scroll);
      assert new_[n].row == y;
    } else {
      assert new_ == old_;
    }
  }

  lemma PutOnRow(cfg: Config, s: Layout, when: bool, shape: Shape)
    ensures OnRow(s, PutIf(Whole(cfg), s, when, shape)) && OnRow(s, Put(Whole(cfg), s, shape))
  {
  }

  lemma PaintOnRow(cfg: Config, s: Layout, x: int, width: int, luma: nat)
    ensures OnRow(s, PaintBg(Whole(cfg), s, x, width, luma))
  {
  }

  lemma CellOnRow(cfg: Config, s: Layout, bytes: seq<bv8>, invert: bool)
    ensures OnRow(s, CellOf(Whole(cfg), s, bytes, invert))
  {
    hide Put, PutIf, PaintBg, OnRow;
    var g := Whole(cfg);
    var blank := |bytes| == 1 && Blankish(bytes[0]);
    PaintOnRow(cfg, s, s.pen.x, Pace(s), s.pen.bgLuma);
    PutOnRow(cfg, s, invert, Fill(s.pen.x, Pace(s), RowHeight(g, s), true));
    PutOnRow(cfg, s, invert, Fill(s.pen.x, Pace(s), RowHeight(g, s), invert));
    var s1 := if s.pen.hasBg then (if blank then PaintBg(g, s, s.pen.x, Pace(s), s.pen.bgLuma) else Put(g, s, Fill(s.pen.x, Pace(s), RowHeight(g, s), invert))) else PutIf(g, s, invert, Fill(s.pen.x, Pace(s), RowHeight(g, s), true));
    PutOnRow(cfg, s1, true, Glyph(FaceOf(g, s1, bytes), s1.pen.x, bytes, !invert));
    var s2 := if blank then s1 else PutGlyph(g, s1, bytes, invert);
    OnRowRefl(s1);
    OnRowTrans(s, s1, s2);
    var s3 := PutIf(g, s2, s.pen.underline, Rule(s.pen.x, RowHeight(g, s) - 2, Pace(s), !invert));
    PutOnRow(cfg, s2, s.pen.underline, Rule(s.pen.x, RowHeight(g, s) - 2, Pace(s), !invert));
    OnRowTrans(s, s2, s3);
  }

  lemma OnRowRefl(s: Layout)
    ensures OnRow(s, s)
  {
  }

  lemma OnRowStep(s: Layout, b: Layout, w: nat)
    requires OnRow(s, b)
    ensures OnRow(s, Moved(b, w))
  {
  }

  lemma {:induction false} WordOnRow(cfg: Config, s: Layout, t: seq<bv8>, k: nat, e: nat, invert: bool)
    requires e <= |t|
    ensures OnRow(s, Word(Whole(cfg), s, t, k, e, invert))
    decreases e - k
  {
    hide OnRow, CellOf, Moved, Pace;
    OnRowRefl(s);
    if k < e {
      var c := CellOf(Whole(cfg), s, ChunkAt(t, k), invert);
      CellOnRow(cfg, s, ChunkAt(t, k), invert);
      var s1 := Moved(c, Pace(s));
      OnRowStep(s, c, Pace(s));
      WordOnRow(cfg, s1, t, k + SeqLen(t[k]), e, invert);
      OnRowTrans(s, s1, Word(Whole(cfg), s1, t, k + SeqLen(t[k]), e, invert));
    }
  }

  lemma OnRowKeeps(a: Layout, b: Layout)
    requires OnRow(a, b)
    ensures Pace(b) == Pace(a) && Indent(b) == Indent(a) && b.pen.y == a.pen.y && b.pen.literal == a.pen.literal && b.pen.head == a.pen.head
  {
  }

  lemma LeadOnRow(cfg: Config, s: Layout, leadW: nat, invert: bool)
    ensures OnRow(s, Lead(Whole(cfg), s, leadW, invert))
    ensures Lead(Whole(cfg), s, leadW, invert).pen.x == Wrap16(s.pen.x + leadW)
  {
    var g := Whole(cfg);
    PaintOnRow(cfg, s, s.pen.x, leadW, s.pen.bgLuma);
    var s1 := if s.pen.hasBg then PaintBg(g, s, s.pen.x, leadW, s.pen.bgLuma) else s;
    OnRowRefl(s);
    PutOnRow(cfg, s1, s.pen.underline, Rule(s.pen.x, RowHeight(g, s) - 2, leadW, !invert));
    OnRowTrans(s, s1, PutIf(g, s1, s.pen.underline, Rule(s.pen.x, RowHeight(g, s) - 2, leadW, !invert)));
  }

  lemma {:induction false} LongOnRow(cfg: Config, s: Layout, t: seq<bv8>, k: nat, e: nat, invert: bool)
    requires e <= |t| && LongWalk(Indent(s), Pace(s), s.pen.x, ChunkCount(t, k, e)).rows == 0
    ensures OnRow(s, LongWord(Whole(cfg), s, t, k, e, invert))
    decreases e - k
  {
    hide OnRow, PutGlyph, Pace, Indent, Put;
    OnRowRefl(s);
    if k < e {
      var g := Whole(cfg);
      var c := PutGlyph(g, s, ChunkAt(t, k), invert);
      GlyphOnRow(cfg, s, ChunkAt(t, k), invert);
      var m := Moved(c, Pace(s));
      OnRowStep(s, c, Pace(s));
      OnRowKeeps(s, m);
      CellStays(g, s, ChunkAt(t, k), invert);
      LongOnRow(cfg, m, t, k + SeqLen(t[k]), e, invert);
      OnRowTrans(s, m, LongWord(g, m, t, k + SeqLen(t[k]), e, invert));
    }
  }

  lemma GlyphOnRow(cfg: Config, s: Layout, bytes: seq<bv8>, invert: bool)
    ensures OnRow(s, PutGlyph(Whole(cfg), s, bytes, invert))
  {
  }

  // A token that does not wrap stays on its row.
  lemma TokenOnRow(cfg: Config, s: Layout, t: seq<bv8>, i: nat, sp: nat, e: nat, invert: bool)
    requires i <= sp <= e <= |t| && forall j :: i <= j < sp ==> Blankish(t[j])
    requires TokenWalk(Indent(s), Pace(s), s.pen.x, sp - i, ChunkCount(t, sp, e)).rows == 0
    ensures OnRow(s, Token(Whole(cfg), s, t, i, sp, e, invert))
  {
    hide OnRow, Word, Lead, Newline, LongWord, ChunkCount, Pace, Indent, LongWalk;
    var g := Whole(cfg);
    BlanksCount(t, i, sp, e);
    if WordWidth(s, t, sp, e) > Usable(s) {
      LongOnRow(cfg, s, t, i, e, invert);
    } else {
      var leadW := LeadWidth(s, i, sp);
      var s1 := if leadW != 0 then Lead(g, s, leadW, invert) else s;
      LeadOnRow(cfg, s, leadW, invert);
      OnRowRefl(s);
      WordOnRow(cfg, s1, t, sp, e, invert);
      OnRowTrans(s, s1, Word(g, s1, t, sp, e, invert));
    }
  }

  lemma {:induction false} TokensOnRow(cfg: Config, s: Layout, t: seq<bv8>, i: nat, invert: bool)
    requires Chunked(t, i) && ProseWalk(Indent(s), Pace(s), s.pen.x, t, i).rows == 0
    ensures OnRow(s, Tokens(Whole(cfg), s, t, i, invert))
    decreases |t| - i
  {
    hide OnRow, Token, TokenWalk, ChunkCount, Pace, Indent;
    OnRowRefl(s);
    if i < |t| {
      TokenBounds(t, i);
      SkipBlankishBounds(t, i);
      var sp := SkipBlankish(t, i);
      var e := WordEnd(t, sp);
      var s1 := Token(Whole(cfg), s, t, i, sp, e, invert);
      TokenOnRow(cfg, s, t, i, sp, e, invert);
      TokenWalks(Whole(cfg), s, t, i, sp, e, invert);
      var a := TokenWalk(Indent(s), Pace(s), s.pen.x, sp - i, ChunkCount(t, sp, e));
      WentKeeps(Whole(cfg), s, s1, a.rows, a.x);
      TokensOnRow(cfg, s1, t, e, invert);
      OnRowTrans(s, s1, Tokens(Whole(cfg), s1, t, e, invert));
    }
  }

  lemma {:induction false} LiteralOnRow(cfg: Config, s: Layout, t: seq<bv8>, k: nat, invert: bool)
    ensures OnRow(s, LiteralFrom(Whole(cfg), s, t, k, invert))
    decreases |t| - k
  {
    hide OnRow;
    var g := Whole(cfg);
    OnRowRefl(s);
    if k < |t| {
      if s.pen.x + FONT_ADVANCE > RIGHT {
        LiteralMark(cfg, s, invert);
      } else {
        LiteralCell(cfg, s, ChunkAt(t, k), invert);
        var s2 := Put(g, PutIf(g, s, invert, Fill(s.pen.x, FONT_ADVANCE, RowHeight(g, s), true)), Glyph(Body, s.pen.x, ChunkAt(t, k), !invert));
        LiteralOnRow(cfg, Moved(s2, FONT_ADVANCE), t, k + SeqLen(t[k]), invert);
        OnRowTrans(s, Moved(s2, FONT_ADVANCE), LiteralFrom(g, Moved(s2, FONT_ADVANCE), t, k + SeqLen(t[k]), invert));
      }
    }
  }

  lemma LiteralMark(cfg: Config, s: Layout, invert: bool)
    ensures OnRow(s, Opened(Put(Whole(cfg), Put(Whole(cfg), s, Fill(RIGHT - FONT_ADVANCE, FONT_ADVANCE, RowHeight(Whole(cfg), s), invert)),
                                Symbol(RIGHT - FONT_ADVANCE, [0xC2, 0xBB], !invert))))
  {
  }

  lemma LiteralCell(cfg: Config, s: Layout, bytes: seq<bv8>, invert: bool)
    ensures OnRow(s, Moved(Put(Whole(cfg), PutIf(Whole(cfg), s, invert, Fill(s.pen.x, FONT_ADVANCE, RowHeight(Whole(cfg), s), true)),
                               Glyph(Body, s.pen.x, bytes, !invert)), FONT_ADVANCE))
  {
  }

  /** A run that does not wrap stays on its row. */
  lemma RunOnRow(cfg: Config, s: Layout, t: seq<bv8>, invert: bool)
    requires Chunked(t, 0) && RunWalk(s.pen, t).rows == 0
    ensures OnRow(s, EmitRun(Whole(cfg), s, t, invert))
  {
    hide LiteralFrom, Tokens, Pace, ProseWalk;
    var a := if s.pen.literal then ToMargin(s) else PullBack(s);
    assert OnRow(s, a);
    SamePace(s, a);
    SamePace(s, Layout(s.pen, []));
    hide OnRow;
    if s.pen.literal {
      LiteralOnRow(cfg, a, t, 0, invert);
    } else {
      TokensOnRow(cfg, a, t, 0, invert);
    }
    OnRowTrans(s, a, EmitRun(Whole(cfg), s, t, invert));
  }

  // Moving the pen to a column and opening the row is a step along the row.
  lemma ColumnOnRow(s: Layout, x: U16)
    ensures OnRow(s, AtColumn(s, x))
    ensures forall b: Layout :: OnRow(AtColumn(s, x), b) ==> OnRow(s, b)
  {
  }

  lemma {:induction false} CellsHeld(cfg: Config, s: Layout, pen: Pen, row: Row, fit: seq<nat>, ln: nat, c: nat, x: U16)
    requires |row| == |fit| && RowChunked(row) && Alike(pen, s.pen) && LineWraps(pen, row, fit, ln, c, x) == 0
    ensures OnRow(s, CellsOn(Whole(cfg), s, row, fit, ln, c, x))
    decreases |row| - c
  {
    hide OnRow, EmitRun, Slice, RunWalk, Wrap16;
    OnRowRefl(s);
    if c < |row| {
      var t := Slice(row[c], fit[c], ln);
      var s1 := if t == [] then s else EmitRun(Whole(cfg), AtColumn(s, x), t, false);
      ColumnOnRow(s, x);
      AlikeWalks(pen, s.pen, x, t);
      RunOnRow(cfg, AtColumn(s, x), t, false);
      CellWalks(Whole(cfg), s, pen, t, x);
      CellsHeld(cfg, s1, pen, row, fit, ln, c + 1, Wrap16(x + (fit[c] + GAP) * 6));
      OnRowTrans(s, s1, CellsOn(Whole(cfg), s1, row, fit, ln, c + 1, Wrap16(x + (fit[c] + GAP) * 6)));
    }
  }

  lemma {:induction false} GuttersOnRow(cfg: Config, s: Layout, fit: seq<nat>, c: nat, x: U16)
    ensures OnRow(s, Gutters(Whole(cfg), s, fit, c, x))
    decreases |fit| - c
  {
    hide OnRow, Put, PutAnyway;
    OnRowRefl(s);
    if c + 1 < |fit| {
      var x': int := Wrap16(x + (fit[c] + GAP) * 6);
      var shape := Fill(Wrap16(x' - 4), 1, LineHeight(Whole(cfg)), true);
      PutOnRow(cfg, s, true, shape);
      SeesAll(Whole(cfg), s, shape);
      GuttersOnRow(cfg, Put(Whole(cfg), s, shape), fit, c + 1, x');
      OnRowTrans(s, Put(Whole(cfg), s, shape), Gutters(Whole(cfg), Put(Whole(cfg), s, shape), fit, c + 1, x'));
    }
  }

  lemma LineOnRow(cfg: Config, s: Layout, pen: Pen, row: Row, fit: seq<nat>, ln: nat)
    requires |row| == |fit| && RowChunked(row) && Alike(pen, s.pen) && WrapsOf(pen, row, fit, ln) == 0
    ensures OnRow(s, LineDrawn(Whole(cfg), s, row, fit, ln))
  {
    hide OnRow, LineWraps, CellsOn, Gutters;
    var left := Indent(s);
    CellsHeld(cfg, s, pen, row, fit, ln, 0, left);
    var s1 := CellsOn(Whole(cfg), s, row, fit, ln, 0, left);
    GuttersOnRow(cfg, s1, fit, 0, left);
    OnRowTrans(s, s1, Gutters(Whole(cfg), s1, fit, 0, left));
  }

  // ---- Tables ---------------------------------------------------------

  lemma {:induction false} CellsSim(ga: Page, scroll: U16, w: Layout, a: Layout, row: Row, fit: seq<nat>, ln: nat, c: nat, x: U16)
    requires Sim(ga, scroll, w, a) && |row| == |fit| && RowChunked(row)
    ensures Sim(ga, scroll, CellsOn(In(ga.cfg, scroll), w, row, fit, ln, c, x), CellsOn(ga, a, row, fit, ln, c, x))
    decreases |row| - c
  {
    hide SimLog, Windowed, EmitRun, Slice;
    if c < |row| {
      var t := Slice(row[c], fit[c], ln);
      var w0, a0 := AtColumn(w, x), AtColumn(a, x);
      RunSim(ga, scroll, w0, a0, t, false);
      var w1 := if t == [] then w else EmitRun(In(ga.cfg, scroll), w0, t, false);
      var a1 := if t == [] then a else EmitRun(ga, a0, t, false);
      CellsSim(ga, scroll, w1, a1, row, fit, ln, c + 1, Wrap16(x + (fit[c] + GAP) * 6));
    }
  }

  lemma {:induction false} GuttersSim(ga: Page, scroll: U16, w: Layout, a: Layout, fit: seq<nat>, c: nat, x: U16)
    requires Sim(ga, scroll, w, a) && (ga.view == All ==> Seen(Window(scroll), a.pen.y))
    ensures Sim(ga, scroll, Gutters(In(ga.cfg, scroll), w, fit, c, x), Gutters(ga, a, fit, c, x))
    decreases |fit| - c
  {
    hide SimLog, Windowed, Seen;
    if c + 1 < |fit| {
      var x': int := Wrap16(x + (fit[c] + GAP) * 6);
      var shape := Fill(Wrap16(x' - 4), 1, LineHeight(ga), true);
      AnywaySim(ga, scroll, w, a, shape);
      GuttersSim(ga, scroll, PutAnyway(In(ga.cfg, scroll), w, shape), PutAnyway(ga, a, shape), fit, c + 1, x');
    }
  }

  lemma LineDrawnSim(ga: Page, scroll: U16, w: Layout, a: Layout, pen: Pen, row: Row, fit: seq<nat>, ln: nat)
    requires Sim(ga, scroll, w, a) && |row| == |fit| && RowChunked(row) && Alike(pen, a.pen)
    requires ga.view == All ==> WrapsOf(pen, row, fit, ln) == 0 && Seen(Window(scroll), a.pen.y)
    ensures Sim(ga, scroll, LineDrawn(In(ga.cfg, scroll), w, row, fit, ln), LineDrawn(ga, a, row, fit, ln))
  {
    hide SimLog, Windowed, CellsOn, Gutters, Seen, LineWraps, RowHeight;
    CellsWalk(ga, a, pen, row, fit, ln, 0, Indent(a));
    CellsSim(ga, scroll, w, a, row, fit, ln, 0, Indent(a));
    GuttersSim(ga, scroll, CellsOn(In(ga.cfg, scroll), w, row, fit, ln, 0, Indent(a)),
               CellsOn(ga, a, row, fit, ln, 0, Indent(a)), fit, 0, Indent(a));
  }

  /** The page is the frame itself, or no cell of the line wraps. */
  predicate LineAlike(ga: Page, pen: Pen, row: Row, fit: seq<nat>, ln: nat)
    requires |row| == |fit| && RowChunked(row)
  {
    ga.view == All ==> WrapsOf(pen, row, fit, ln) == 0
  }

  lemma TableLineSim(ga: Page, scroll: U16, w: Layout, a: Layout, pen: Pen, row: Row, fit: seq<nat>, ln: nat)
    requires Sim(ga, scroll, w, a) && |row| == |fit| && RowChunked(row)
    requires Alike(pen, a.pen) && LineAlike(ga, pen, row, fit, ln)
    ensures Sim(ga, scroll, TableLine(In(ga.cfg, scroll), w, row, fit, ln), TableLine(ga, a, row, fit, ln))
    ensures Alike(pen, TableLine(ga, a, row, fit, ln).pen)
  {
    hide SimLog, Windowed, LineDrawn, WrapsOf, LineY, LineDone, Seen;
    LineWalks(ga, a, pen, row, fit, ln);
    var gw := In(ga.cfg, scroll);
    var w1 := if Seen(Window(scroll), w.pen.y) then LineDrawn(gw, w, row, fit, ln) else w;
    var a1 := if LaidOut(ga.view, a.pen.y) then LineDrawn(ga, a, row, fit, ln) else a;
    LineShownSim(ga, scroll, w, a, pen, row, fit, ln);
    EndsSim(ga, scroll, w1, a1);
  }

  lemma LineShownSim(ga: Page, scroll: U16, w: Layout, a: Layout, pen: Pen, row: Row, fit: seq<nat>, ln: nat)
    requires Sim(ga, scroll, w, a) && |row| == |fit| && RowChunked(row)
    requires Alike(pen, a.pen) && LineAlike(ga, pen, row, fit, ln)
    ensures var w1 := if Seen(Window(scroll), w.pen.y) then LineDrawn(In(ga.cfg, scroll), w, row, fit, ln) else w;
      var a1 := if LaidOut(ga.view, a.pen.y) then LineDrawn(ga, a, row, fit, ln) else a;
      SimLog(ga, scroll, w1.log, a1.log) && a1.pen == w1.pen.(x := a1.pen.x, rowOpen := a1.pen.rowOpen)
  {
    hide SimLog, Windowed, LineDrawn, WrapsOf;
    if Seen(Window(scroll), a.pen.y) {
      LineDrawnSim(ga, scroll, w, a, pen, row, fit, ln);
    } else if ga.view == All {
      HeldUnseen(ga.cfg, scroll, a, pen, row, fit, ln);
      UnseenSim(ga, scroll, w.log, a.log, LineDrawn(ga, a, row, fit, ln).log);
    }
  }

  lemma UnseenSim(ga: Page, scroll: U16, w: seq<Draw>, a: seq<Draw>, b: seq<Draw>)
    requires SimLog(ga, scroll, w, a) && Windowed(b, scroll) == Windowed(a, scroll)
    ensures SimLog(ga, scroll, w, b)
  {
  }

  lemma EndsSim(ga: Page, scroll: U16, w: Layout, a: Layout)
    requires Keeps(ga, scroll) && SimLog(ga, scroll, w.log, a.log) && a.pen == w.pen.(x := a.pen.x, rowOpen := a.pen.rowOpen)
    ensures Sim(ga, scroll, LineDone(In(ga.cfg, scroll), w), LineDone(ga, a))
  {
    hide SimLog, Windowed;
  }

  lemma HeldUnseen(cfg: Config, scroll: U16, a: Layout, pen: Pen, row: Row, fit: seq<nat>, ln: nat)
    requires |row| == |fit| && RowChunked(row) && Alike(pen, a.pen) && WrapsOf(pen, row, fit, ln) == 0
    requires !Seen(Window(scroll), a.pen.y)
    ensures var b := LineDrawn(Whole(cfg), a, row, fit, ln);
      Windowed(b.log, scroll) == Windowed(a.log, scroll) && b.pen == a.pen.(x := b.pen.x, rowOpen := b.pen.rowOpen)
  {
    hide SimLog, Windowed, LineDrawn, WrapsOf, Seen;
    LineOnRow(cfg, a, pen, row, fit, ln);
    UnseenAdds(a.log, LineDrawn(Whole(cfg), a, row, fit, ln).log, a.pen.y, scroll);
  }

  lemma {:induction false} TableLinesSim(ga: Page, scroll: U16, w: Layout, a: Layout, pen: Pen, row: Row, fit: seq<nat>, ln: nat, lines: nat)
    requires Sim(ga, scroll, w, a) && |row| == |fit| && RowChunked(row) && Alike(pen, a.pen)
    requires forall k :: ln <= k < lines ==> LineAlike(ga, pen, row, fit, k)
    ensures Sim(ga, scroll, TableLines(In(ga.cfg, scroll), w, row, fit, ln, lines), TableLines(ga, a, row, fit, ln, lines))
    ensures Alike(pen, TableLines(ga, a, row, fit, ln, lines).pen)
    decreases lines - ln
  {
    hide SimLog, Windowed, TableLine, WrapsOf, LineAlike;
    if ln < lines {
      TableLineSim(ga, scroll, w, a, pen, row, fit, ln);
      TableLinesSim(ga, scroll, TableLine(In(ga.cfg, scroll), w, row, fit, ln), TableLine(ga, a, row, fit, ln), pen, row, fit, ln + 1, lines);
    }
  }

  lemma TableRowSim(ga: Page, scroll: U16, w: Layout, a: Layout, pen: Pen, row: Row, fit: seq<nat>, header: bool)
    requires Sim(ga, scroll, w, a) && |row| == |fit| && RowChunked(row) && Alike(pen, a.pen)
    requires ga.view == All ==> RowHolds(pen, row, fit)
    ensures Sim(ga, scroll, TableRow(In(ga.cfg, scroll), w, row, fit, header), TableRow(ga, a, row, fit, header))
    ensures Alike(pen, TableRow(ga, a, row, fit, header).pen)
  {
    hide SimLog, Windowed, TableLines, RowLines, WrapsOf, Put;
    var n := RowLines(row, fit, |row|);
    TableLinesSim(ga, scroll, w, a, pen, row, fit, 0, n);
    var w1, a1 := TableLines(In(ga.cfg, scroll), w, row, fit, 0, n), TableLines(ga, a, row, fit, 0, n);
    var rule := Rule(Indent(a1), -1, RIGHT - Indent(a1), true);
    PutSame(ga, scroll, w1, a1, header, rule);
    PutPen(ga, a1, rule);
  }

  lemma {:induction false} TableRowsSim(ga: Page, scroll: U16, w: Layout, a: Layout, pen: Pen, rows: seq<Row>, fit: seq<nat>, r: nat)
    requires Sim(ga, scroll, w, a) && TableShape(rows, fit) && Alike(pen, a.pen)
    requires ga.view == All ==> TableHolds(pen, rows, fit)
    ensures Sim(ga, scroll, TableRows(In(ga.cfg, scroll), w, rows, fit, r), TableRows(ga, a, rows, fit, r))
    decreases |rows| - r
  {
    hide SimLog, Windowed, TableRow, RowChunked, RowHolds;
    if r < |rows| {
      TableRowSim(ga, scroll, w, a, pen, rows[r], fit, r == 0);
      TableRowsSim(ga, scroll, TableRow(In(ga.cfg, scroll), w, rows[r], fit, r == 0), TableRow(ga, a, rows[r], fit, r == 0), pen, rows, fit, r + 1);
    }
  }

  lemma FlushSim(ga: Page, scroll: U16, w: Layout, a: Layout, rows: seq<Row>, widths: seq<nat>)
    requires Sim(ga, scroll, w, a) && TableShape(rows, widths) && (ga.view == All ==> TableSafe(a.pen, rows, widths))
    ensures Sim(ga, scroll, TableFlush(In(ga.cfg, scroll), w, rows, widths), TableFlush(ga, a, rows, widths))
  {
    hide SimLog, Windowed, TableRows, Fitted, TableHolds;
    if rows != [] && widths != [] {
      var fit := Fitted(widths, TableAvail(a));
      TableRowsSim(ga, scroll, w, a, a.pen, rows, fit, 0);
      var w1, a1 := TableRows(In(ga.cfg, scroll), w, rows, fit, 0), TableRows(ga, a, rows, fit, 0);
      PutSame(ga, scroll, w1, a1, true, Rule(Indent(a1), 0, RIGHT - Indent(a1), true));
    }
  }

  // ---- The theorem ----------------------------------------------------

  /** The callback is a table none of whose cells wraps inside its column, or not a table. */
  ghost predicate SafeStep(s: Layout, cb: Callback) {
    WellFormed(cb) && (cb.Table? ==> TableSafe(Deepened(s, cb.style.depth).pen, cb.rows, cb.widths))
  }

  lemma StepSim(ga: Page, scroll: U16, w: Layout, a: Layout, cb: Callback)
    requires Sim(ga, scroll, w, a) && WellFormed(cb) && (ga.view == All ==> SafeStep(a, cb))
    ensures Sim(ga, scroll, Step(In(ga.cfg, scroll), w, cb), Step(ga, a, cb))
  {
    hide SimLog, Windowed, OnText, OnLink, OnDivider, DividerFrom, OnField, OnLineEnd, TableFlush, EmitRun, TableSafe, Natural;
    match cb
    case Text(t, style) => TextSim(ga, scroll, w, a, t, style);
    case LinkTo(caption, target, style) => LinkSim(ga, scroll, w, a, caption, target, style);
    case Divider(ch, style) => DividerStepSim(ga, scroll, w, a, ch, style);
    case FieldOf(f, style) => FieldSim(ga, scroll, w, a, f, style);
    case LineEnd(style) => LineEndSim(ga, scroll, w, a, style);
    case Table(rows, widths, style) =>
      FlushSim(ga, scroll, Deepened(w, style.depth), Deepened(a, style.depth), rows, widths);
    case Image(alt, url, style) => ImageSim(ga, scroll, w, a, alt, url, style);
    case Partial(url, style) => PartialSim(ga, scroll, w, a, url, style);
    case Blank =>
  }

  lemma DividerStepSim(ga: Page, scroll: U16, w: Layout, a: Layout, ch: bv32, style: Style)
    requires Sim(ga, scroll, w, a)
    ensures Sim(ga, scroll, OnDivider(In(ga.cfg, scroll), w, ch, style), OnDivider(ga, a, ch, style))
  {
    hide SimLog, Windowed, DividerFrom, DividerBytes;
    var w1, a1 := ToMargin(Deepened(w, style.depth)), ToMargin(Deepened(a, style.depth));
    assert Sim(ga, scroll, w1, a1);
    DividerSim(ga, scroll, w1, a1, Indent(a1), DividerBytes(ch));
  }

  lemma ImageSim(ga: Page, scroll: U16, w: Layout, a: Layout, alt: seq<bv8>, url: seq<bv8>, style: Style)
    requires Sim(ga, scroll, w, a) && Chunked(alt, 0) && Chunked(url, 0)
    ensures Sim(ga, scroll, OnImage(In(ga.cfg, scroll), w, alt, url, style), OnImage(ga, a, alt, url, style))
  {
    hide SimLog, Windowed, EmitRun;
    var w1, a1 := Deepened(w, style.depth), Deepened(a, style.depth);
    assert Sim(ga, scroll, w1, a1);
    var tag := Ascii([0x5B, 0x69, 0x6D, 0x67, 0x5D, 0x20]);
    RunSim(ga, scroll, w1, a1, tag, a1.pen.invert);
    var w2, a2 := EmitRun(In(ga.cfg, scroll), w1, tag, w1.pen.invert), EmitRun(ga, a1, tag, a1.pen.invert);
    RunSim(ga, scroll, w2, a2, if alt != [] then alt else url, a2.pen.invert);
  }

  lemma PartialSim(ga: Page, scroll: U16, w: Layout, a: Layout, url: seq<bv8>, style: Style)
    requires Sim(ga, scroll, w, a) && Chunked(url, 0)
    ensures Sim(ga, scroll, OnPartial(In(ga.cfg, scroll), w, url, style), OnPartial(ga, a, url, style))
  {
    hide SimLog, Windowed, EmitRun, OnLink;
    var w1, a1 := Deepened(w, style.depth), Deepened(a, style.depth);
    assert Sim(ga, scroll, w1, a1);
    var tag := Ascii([0x5B, 0x2B, 0x5D, 0x20]);
    RunSim(ga, scroll, w1, a1, tag, a1.pen.invert);
    LinkSim(ga, scroll, EmitRun(In(ga.cfg, scroll), w1, tag, w1.pen.invert), EmitRun(ga, a1, tag, a1.pen.invert), url, url, style);
  }

  /** No table of the sequence has a wrapping cell when its turn comes. */
  ghost predicate SafeRun(cfg: Config, s: Layout, cbs: seq<Callback>)
    decreases |cbs|
  {
    cbs == [] || (SafeStep(s, cbs[0]) && SafeRun(cfg, Step(Whole(cfg), s, cbs[0]), cbs[1..]))
  }

  lemma {:induction false} SafeRunWellFormed(cfg: Config, s: Layout, cbs: seq<Callback>)
    requires SafeRun(cfg, s, cbs)
    ensures forall i :: 0 <= i < |cbs| ==> WellFormed(cbs[i])
    decreases |cbs|
  {
    hide WellFormed, Step, TableSafe;
    if cbs != [] {
      SafeHead(cfg, s, cbs);
      SafeRunWellFormed(cfg, Step(Whole(cfg), s, cbs[0]), cbs[1..]);
      assert forall i :: 1 <= i < |cbs| ==> cbs[i] == cbs[1..][i - 1];
    }
  }

  lemma {:induction false} ScrollSim(cfg: Config, scroll: U16, w: Layout, a: Layout, cbs: seq<Callback>)
    requires Sim(Whole(cfg), scroll, w, a) && SafeRun(cfg, a, cbs)
    ensures forall i :: 0 <= i < |cbs| ==> WellFormed(cbs[i])
    ensures Sim(Whole(cfg), scroll, Run(In(cfg, scroll), w, cbs), Run(Whole(cfg), a, cbs))
    decreases |cbs|
  {
    hide SimLog, Windowed, Step, SafeStep, WellFormed;
    SafeRunWellFormed(cfg, a, cbs);
    if cbs != [] {
      SafeHead(cfg, a, cbs);
      StepSim(Whole(cfg), scroll, w, a, cbs[0]);
      ScrollSim(cfg, scroll, Step(In(cfg, scroll), w, cbs[0]), Step(Whole(cfg), a, cbs[0]), cbs[1..]);
    }
  }

  lemma SafeHead(cfg: Config, s: Layout, cbs: seq<Callback>)
    requires cbs != [] && SafeRun(cfg, s, cbs)
    ensures SafeStep(s, cbs[0]) && WellFormed(cbs[0]) && SafeRun(cfg, Step(Whole(cfg), s, cbs[0]), cbs[1..])
  {
  }

  /** Scrolling never changes layout. From one starting pen, for every callback sequence whose tables hold
      their columns and every pair of scroll offsets, the pen, the row state and the content height come
      out the same, and each frame's draw log is the whole page's log filtered to its window and shifted
      by its offset. */
  lemma ScrollingNeverChangesLayout(cfg: Config, scroll: U16, other: U16, pen: Pen, cbs: seq<Callback>)
    requires SafeRun(cfg, Layout(pen, []), cbs)
    ensures forall i :: 0 <= i < |cbs| ==> WellFormed(cbs[i])
    ensures Run(In(cfg, scroll), Layout(pen, []), cbs).pen == Run(In(cfg, other), Layout(pen, []), cbs).pen
    ensures Run(In(cfg, scroll), Layout(pen, []), cbs).log == Windowed(Run(Whole(cfg), Layout(pen, []), cbs).log, scroll)
  {
    hide Run, SafeRun, Windowed, ShowsAll;
    StartSim(Whole(cfg), scroll, pen);
    StartSim(Whole(cfg), other, pen);
    ScrollSim(cfg, scroll, Layout(pen, []), Layout(pen, []), cbs);
    ScrollSim(cfg, other, Layout(pen, []), Layout(pen, []), cbs);
  }

  lemma {:induction false} TallSim(cfg: Config, scroll: U16, w: Layout, a: Layout, cbs: seq<Callback>)
    requires Sim(Page(cfg, Tall(scroll)), scroll, w, a) && forall i :: 0 <= i < |cbs| ==> WellFormed(cbs[i])
    ensures Sim(Page(cfg, Tall(scroll)), scroll, Run(In(cfg, scroll), w, cbs), Run(Page(cfg, Tall(scroll)), a, cbs))
    decreases |cbs|
  {
    hide SimLog, Windowed, Step, SafeStep, WellFormed;
    if cbs != [] {
      StepSim(Page(cfg, Tall(scroll)), scroll, w, a, cbs[0]);
      TallSim(cfg, scroll, Step(In(cfg, scroll), w, cbs[0]), Step(Page(cfg, Tall(scroll)), a, cbs[0]), cbs[1..]);
    }
  }

  /** Every frame, its tables safe or not, is its own tall page cut to the panel, but for the lines between
      columns that a wrap has pushed out of sight. */
  lemma FramesAreCut(cfg: Config, scroll: U16, pen: Pen, cbs: seq<Callback>)
    requires forall i :: 0 <= i < |cbs| ==> WellFormed(cbs[i])
    ensures var w, a := Run(In(cfg, scroll), Layout(pen, []), cbs), Run(Page(cfg, Tall(scroll)), Layout(pen, []), cbs);
      w.pen == a.pen && ShowsAll(w.log, Windowed(a.log, scroll))
  {
    hide Run, Windowed, ShowsAll;
    StartSim(Page(cfg, Tall(scroll)), scroll, pen);
    TallSim(cfg, scroll, Layout(pen, []), Layout(pen, []), cbs);
  }
}
