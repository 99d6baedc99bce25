// The renderer itself: callbacks and loops that move the pen and draw what the window shows.
module PageRendering {
  import opened Geometry
  import opened Utf8
  import opened Chunks
  import opened CellWalk
  import opened TableFit
  import opened LayoutTypes
  import opened LayoutSpec

  const MAX_LINKS := 48

  /** The link boxes among the draws, in order. */
  function LinksOf(log: seq<Draw>): seq<Shape>
    decreases |log|
  {
    if log == [] then []
    else
      var d := log[|log| - 1].shape;
      LinksOf(log[..|log| - 1]) + if d.Link? then [d] else []
  }

  /** The link table of a frame is its first forty-eight link boxes, and it says when there were more. */
  ghost predicate LinkTable(log: seq<Draw>, links: seq<Shape>, overflowed: bool) {
    links == LinksOf(log)[..Min(|LinksOf(log)|, MAX_LINKS)] && overflowed == (|LinksOf(log)| > MAX_LINKS)
  }

  /** The table holds forty-eight boxes and says when there were more. */
  lemma LinkTableHolds(log: seq<Draw>, links: seq<Shape>, overflowed: bool)
    requires LinkTable(log, links, overflowed)
    ensures links <= LinksOf(log) && |links| <= 48 && (overflowed <==> |LinksOf(log)| > 48) && (!overflowed ==> links == LinksOf(log))
  {
    assert LinksOf(log)[..|LinksOf(log)|] == LinksOf(log);
  }

  lemma LinkTableSnoc(log: seq<Draw>, links: seq<Shape>, overflowed: bool, d: Draw)
    requires LinkTable(log, links, overflowed)
    ensures !d.shape.Link? ==> LinkTable(log + [d], links, overflowed)
    ensures d.shape.Link? && |links| < MAX_LINKS ==> LinkTable(log + [d], links + [d.shape], overflowed)
    ensures d.shape.Link? && |links| >= MAX_LINKS ==> LinkTable(log + [d], links, true)
  {
    assert (log + [d])[..|log|] == log;
  }

  lemma HeadedKeepsBg(g: Page, s: Layout, t: seq<bv8>, style: Style)
    ensures Headed(g, s, t, style).pen.hasBg == s.pen.hasBg && Headed(g, s, t, style).pen.bgLuma == s.pen.bgLuma
  {
  }

  class PageRenderer {
    const cfg: Config
    const colW: array<nat>
    var scroll: U16
    var pen: Pen
    /** The display calls made this frame, in panel coordinates. */
    var calls: seq<Draw>
    var links: seq<Shape>
    var linksOverflowed: bool

    ghost predicate Valid()
      reads this
    {
      && colW.Length == T_COLS
      && LinkTable(calls, links, linksOverflowed)
    }

    function State(): Layout
      reads this
    {
      Layout(pen, calls)
    }

    function Here(): Page
      reads this
    {
      Page(cfg, Window(scroll))
    }

    constructor (cfg: Config)
      ensures Valid() && State() == Fresh() && this.cfg == cfg && fresh(colW)
    {
      this.cfg := cfg;
      colW := new nat[T_COLS](_ => 0);
      scroll, calls, links, linksOverflowed := 0, [], [], false;
      pen := Fresh().pen;
    }

    /** Starts a frame. Face, row height and literal mode are not reset. */
    method Begin(scrollY: U16)
      requires Valid()
      modifies this
      ensures Valid() && scroll == scrollY && calls == []
      ensures pen == old(pen).(y := 0, x := 0, rowOpen := false, depth := 0, invert := false, blankPending := true)
    {
      scroll := scrollY;
      pen := pen.(y := 0, x := 0, rowOpen := false, depth := 0, invert := false, blankPending := true);
      calls, links, linksOverflowed := [], [], false;
    }

    function Left(): nat
      reads this
    {
      MARGIN_X + 12 * (if pen.depth > MAX_DEPTH then MAX_DEPTH else pen.depth)
    }

    function RowH(): nat
      reads this
    {
      if pen.rowH != 0 then pen.rowH else LINE_H + cfg.leading
    }

    function Advance(): nat
      reads this
    {
      if pen.head == 1 then FaceWidth(Big)
      else if pen.head == 2 || pen.head == 3 then FaceWidth(HeadFace(pen.head))
      else if pen.bold then FaceWidth(BoldInline)
      else FONT_ADVANCE
    }

    predicate RowVisible()
      reads this
    {
      var y := Wrap16(pen.y);
      y >= scroll && y < scroll + HEIGHT
    }

    function ScreenRow(): U16
      reads this
    {
      Wrap16(Wrap16(pen.y) - scroll)
    }

    // Every draw is gated on the row being in view.
    method DrawOnRow(shape: Shape)
      requires Valid() && !shape.Link?
      modifies `calls
      ensures Valid() && State() == Put(Here(), old(State()), shape)
    {
      hide LinkTable;
      if RowVisible() {
        LinkTableSnoc(calls, links, linksOverflowed, Draw(ScreenRow(), RowH(), shape));
        calls := calls + [Draw(ScreenRow(), RowH(), shape)];
      }
    }

    method DrawAnyway(shape: Shape)
      requires Valid() && !shape.Link?
      modifies `calls
      ensures Valid() && State() == PutAnyway(Here(), old(State()), shape)
    {
      hide LinkTable;
      LinkTableSnoc(calls, links, linksOverflowed, Draw(ScreenRow(), RowH(), shape));
      calls := calls + [Draw(ScreenRow(), RowH(), shape)];
    }

    method DrawIf(when: bool, shape: Shape)
      requires Valid() && !shape.Link?
      modifies `calls
      ensures Valid() && State() == PutIf(Here(), old(State()), when, shape)
    {
      if when {
        DrawOnRow(shape);
      }
    }

    method RecordLink(x0: int, y0: nat, target: seq<bv8>)
      requires Valid()
      modifies `calls, `links, `linksOverflowed
      ensures Valid()
      ensures State() == Put(Here(), old(State()), Shape.Link(x0, y0, if pen.x > x0 then pen.x - x0 else 0, RowH(), target))
    {
      hide LinkTable;
      if RowVisible() {
        var box := Shape.Link(x0, y0, if pen.x > x0 then pen.x - x0 else 0, RowH(), target);
        LinkTableSnoc(calls, links, linksOverflowed, Draw(ScreenRow(), RowH(), box));
        calls := calls + [Draw(ScreenRow(), RowH(), box)];
        if |links| < MAX_LINKS {
          links := links + [box];
        } else {
          linksOverflowed := true;
        }
      }
    }

    method NewRow()
      modifies `pen
      ensures State() == Newline(Here(), old(State()))
    {
      pen := pen.(y := pen.y + RowH(), x := Left(), rowOpen := false);
    }

    method MovePen(w: nat)
      modifies `pen
      ensures State() == Moved(old(State()), w)
    {
      pen := pen.(x := Wrap16(pen.x + w), rowOpen := true);
    }

    method WrapIf(nextW: nat)
      modifies `pen
      ensures State() == WrapIfNeeded(Here(), old(State()), nextW)
    {
      if pen.x > Left() && pen.x + nextW > RIGHT {
        NewRow();
      }
    }

    method PaintBackground(x: int, w: int, luma: nat)
      requires Valid()
      modifies `calls
      ensures Valid() && State() == PaintBg(Here(), old(State()), x, w, luma)
    {
      if cfg.dither {
        DrawOnRow(Texture(x, w, RowH(), luma));
      } else if luma < 128 {
        DrawOnRow(Fill(x, w, RowH(), true));
      }
    }

    method DrawGlyph(bytes: seq<bv8>, invert: bool)
      requires Valid()
      modifies `calls
      ensures Valid() && State() == PutGlyph(Here(), old(State()), bytes, invert)
    {
      var cp := NextCp(bytes, 0).0;
      var face :=
        if pen.head == 1 then Big
        else if pen.head == 2 || pen.head == 3 then HeadFace(pen.head)
        else if pen.bold && cfg.has(BoldInline, cp) then BoldInline
        else Body;
      DrawOnRow(Glyph(face, pen.x, bytes, !invert));
    }

    method DrawCell(bytes: seq<bv8>, invert: bool)
      requires Valid()
      modifies `calls
      ensures Valid() && State() == CellOf(Here(), old(State()), bytes, invert)
    {
      hide PutGlyph, PaintBg, Put;
      var blank := |bytes| == 1 && Blankish(bytes[0]);
      if pen.hasBg {
        if blank {
          PaintBackground(pen.x, Advance(), pen.bgLuma);
        } else {
          DrawOnRow(Fill(pen.x, Advance(), RowH(), invert));
        }
      } else if invert {
        DrawOnRow(Fill(pen.x, Advance(), RowH(), true));
      }
      if !blank {
        DrawGlyph(bytes, invert);
      }
      DrawIf(pen.underline, Rule(pen.x, RowH() - 2, Advance(), !invert));
    }

    // A literal row: drawn as it is and clipped with a mark.
    method EmitLiteral(t: seq<bv8>, invert: bool)
      requires Valid() && Chunked(t, 0)
      modifies `calls, `pen
      ensures Valid() && State() == LiteralFrom(Here(), ToMargin(old(State())), t, 0, invert)
    {
      hide Clipped, LiteralCellOf, LinkTable;
      if !pen.rowOpen {
        pen := pen.(x := Left());
      }
      ghost var target := LiteralFrom(Here(), State(), t, 0, invert);
      var k := 0;
      while k < |t|
        invariant 0 <= k <= |t| && Chunked(t, k) && Valid()
        invariant LiteralFrom(Here(), State(), t, k, invert) == target
      {
        if pen.x + FONT_ADVANCE > RIGHT {
          ClipMark(invert);
          return;
        }
        LiteralCell(ChunkAt(t, k), invert);
        k := k + SeqLen(t[k]);
      }
    }

    method ClipMark(invert: bool)
      requires Valid()
      modifies `calls, `pen
      ensures Valid() && State() == Clipped(Here(), old(State()), invert)
    {
      hide Put, LinkTable;
      DrawOnRow(Fill(RIGHT - FONT_ADVANCE, FONT_ADVANCE, RowH(), invert));
      DrawOnRow(Symbol(RIGHT - FONT_ADVANCE, [0xC2, 0xBB], !invert));
      pen := pen.(rowOpen := true);
    }

    method LiteralCell(bytes: seq<bv8>, invert: bool)
      requires Valid()
      modifies `calls, `pen
      ensures Valid() && State() == LiteralCellOf(Here(), old(State()), bytes, invert)
    {
      hide Put, Moved, LinkTable;
      DrawIf(invert, Fill(pen.x, FONT_ADVANCE, RowH(), true));
      DrawOnRow(Glyph(Body, pen.x, bytes, !invert));
      MovePen(FONT_ADVANCE);
    }

    /** Draws a run, wrapping between words; nothing is copied. */
    method EmitText(t: seq<bv8>, invert: bool)
      requires Valid() && Chunked(t, 0)
      modifies `calls, `pen
      ensures Valid() && State() == EmitRun(Here(), old(State()), t, invert)
    {
      hide LiteralFrom, Token, LinkTable;
      if pen.literal {
        EmitLiteral(t, invert);
        return;
      }
      if !pen.rowOpen && pen.x < Left() {
        pen := pen.(x := Left());
      }
      ghost var target := Tokens(Here(), State(), t, 0, invert);
      var i := 0;
      while i < |t|
        invariant 0 <= i <= |t| && Chunked(t, i) && Valid()
        invariant Tokens(Here(), State(), t, i, invert) == target
      {
        TokenBounds(t, i);
        ghost var at := i;
        var sp, w := MeasureToken(t, i);
        EmitToken(t, i, sp, w, invert);
        i := w;
      }
    }

    // One word and the spaces in front of it, measured before drawing.
    method MeasureToken(t: seq<bv8>, i: nat) returns (sp: nat, w: nat)
      requires i < |t| && Chunked(t, i)
      ensures sp == SkipBlankish(t, i) && w == WordEnd(t, sp) && i <= sp <= w <= |t| && i < w && Chunked(t, w)
    {
      TokenBounds(t, i);
      sp := i;
      while sp < |t| && Blankish(t[sp])
        invariant i <= sp <= |t| && SkipBlankish(t, sp) == SkipBlankish(t, i)
      {
        sp := sp + 1;
      }
      w := sp;
      while w < |t| && !Blankish(t[w])
        invariant sp <= w <= |t| && Chunked(t, w) && WordEnd(t, w) == WordEnd(t, sp)
      {
        w := w + SeqLen(t[w]);
      }
    }

    method CountChunks(t: seq<bv8>, from: nat, to: nat) returns (n: nat)
      requires from <= to <= |t|
      ensures n == ChunkCount(t, from, to)
    {
      n := 0;
      var i := from;
      assert n + ChunkCount(t, i, to) == ChunkCount(t, from, to);
      while i < to
        invariant from <= i
        invariant n + ChunkCount(t, i, to) == ChunkCount(t, from, to)
      {
        n := n + 1;
        i := i + SeqLen(t[i]);
      }
    }

    method EmitToken(t: seq<bv8>, i: nat, sp: nat, w: nat, invert: bool)
      requires Valid() && i <= sp <= w <= |t|
      modifies `calls, `pen
      ensures Valid() && State() == Token(Here(), old(State()), t, i, sp, w, invert)
    {
      hide LongWord, Word, Lead, LinkTable;
      var leadW := Wrap16((sp - i) * Advance());
      var n := CountChunks(t, sp, w);
      var wordW := Wrap16(n * Advance());
      if wordW > CONTENT_W - (Left() - MARGIN_X) {
        EmitLongWord(t, i, w, invert);
        return;
      }
      if pen.x + leadW + wordW > RIGHT && pen.x > Left() {
        NewRow();
      } else if leadW != 0 {
        EmitLead(leadW, invert);
      }
      EmitWord(t, sp, w, invert);
    }

    method EmitLongWord(t: seq<bv8>, i: nat, w: nat, invert: bool)
      requires Valid() && i <= w <= |t|
      modifies `calls, `pen
      ensures Valid() && State() == LongWord(Here(), old(State()), t, i, w, invert)
    {
      hide PutGlyph, WrapIfNeeded, Moved, LinkTable;
      ghost var target := LongWord(Here(), State(), t, i, w, invert);
      var k := i;
      while k < w
        invariant Valid() && i <= k
        invariant LongWord(Here(), State(), t, k, w, invert) == target
        decreases w - k
      {
        WrapIf(Advance());
        DrawGlyph(ChunkAt(t, k), invert);
        MovePen(Advance());
        k := k + SeqLen(t[k]);
      }
    }

    method EmitLead(leadW: nat, invert: bool)
      requires Valid()
      modifies `calls, `pen
      ensures Valid() && State() == Lead(Here(), old(State()), leadW, invert)
    {
      hide PaintBg, Put, Moved, LinkTable;
      if pen.hasBg {
        PaintBackground(pen.x, leadW, pen.bgLuma);
      }
      DrawIf(pen.underline, Rule(pen.x, RowH() - 2, leadW, !invert));
      MovePen(leadW);
    }

    method EmitWord(t: seq<bv8>, sp: nat, w: nat, invert: bool)
      requires Valid() && sp <= w <= |t|
      modifies `calls, `pen
      ensures Valid() && State() == Word(Here(), old(State()), t, sp, w, invert)
    {
      hide CellOf, Moved, LinkTable;
      ghost var target := Word(Here(), State(), t, sp, w, invert);
      var k := sp;
      while k < w
        invariant Valid() && sp <= k
        invariant Word(Here(), State(), t, k, w, invert) == target
        decreases w - k
      {
        DrawCell(ChunkAt(t, k), invert);
        MovePen(Advance());
        k := k + SeqLen(t[k]);
      }
    }

    // ---- Callbacks ----------------------------------------------------

    method OnTextRun(t: seq<bv8>, style: Style)
      requires Valid() && Chunked(t, 0)
      modifies `calls, `pen
      ensures Valid() && State() == OnText(Here(), old(State()), t, style)
    {
      hide EmitRun, LinkTable, Styled;
      StyleRun(t, style);
      EmitText(t, pen.invert);
    }

    method StyleRun(t: seq<bv8>, style: Style)
      modifies `pen
      ensures State() == Styled(Here(), old(State()), t, style)
    {
      hide Aligned, Headed, Luma, HasBg, LinkTable;
      pen := pen.(depth := style.depth, blankPending := false, literal := style.literal);
      if !pen.rowOpen {
        pen := pen.(x := Left());
      }
      Align(t, style.align);
      pen := pen.(hasBg := HasBg(style.bg), bgLuma := Luma(style.bg));
      HeadedKeepsBg(Here(), State(), t, style);
      ChooseHeading(t, style);
      var darkBg := pen.hasBg && pen.bgLuma < 128;
      pen := pen.(bold := style.bold && pen.head == 0, underline := style.underline,
                  headRule := cfg.stepped && style.heading && style.depth >= 2 && pen.head == 0,
                  invert := darkBg);
    }

    method Align(t: seq<bv8>, align: LayoutTypes.Align)
      modifies `pen
      ensures State() == Aligned(old(State()), t, align)
    {
      assert Advance() == Pace(State());
      hide Cells, Wrap16, FaceWidth, HeadFace, Pace, LinkTable;
      if !pen.rowOpen && align != LayoutTypes.Left {
        var w: U16 := Wrap16(Cells(t) * Advance());
        var avail := RIGHT - Left();
        if w <= avail {
          pen := pen.(x := if align == Center then Left() + (avail - w) / 2 else RIGHT - w);
        }
      }
    }

    // Whole line or nothing: the face is taken only if it carries every codepoint.
    method ChooseHeading(t: seq<bv8>, style: Style)
      modifies `pen
      ensures State() == Headed(Here(), old(State()), t, style)
    {
      if cfg.head2x && style.heading && !pen.rowOpen {
        var want := HeadWanted(style.depth);
        var all := |t| > 0;
        var k := 0;
        while k < |t| && all
          invariant 0 <= k && (|t| > 0 && AllIn(Here(), HeadFace(want), t, 0) <==> all && AllIn(Here(), HeadFace(want), t, k))
          decreases |t| - k, all
        {
          if !cfg.has(HeadFace(want), InlineCp(t, k)) {
            all := false;
          }
          k := k + SeqLen(t[k]);
        }
        if all {
          pen := pen.(head := want, rowH := FaceHeight(HeadFace(want)) + cfg.leading);
        }
      }
    }

    method OnLinkTo(caption: seq<bv8>, target: seq<bv8>, style: Style)
      requires Valid() && Chunked(caption, 0)
      modifies `calls, `pen, `links, `linksOverflowed
      ensures Valid() && State() == OnLink(Here(), old(State()), caption, target, style)
    {
      hide EmitRun, LinkTable, Put;
      pen := pen.(depth := style.depth);
      if !pen.rowOpen {
        pen := pen.(x := Left());
      }
      var x0, y0 := pen.x, ScreenRow();
      EmitText(caption, pen.invert);
      RecordLink(x0, y0, target);
    }

    method OnDividerOf(ch: bv32, style: Style)
      requires Valid()
      modifies `calls, `pen
      ensures Valid() && State() == OnDivider(Here(), old(State()), ch, style)
    {
      hide LinkTable, DividerBytes, DividerFrom;
      pen := pen.(depth := style.depth);
      if !pen.rowOpen {
        pen := pen.(x := Left());
      }
      DividerCells(DividerBytes(ch), Left());
      pen := pen.(rowOpen := true);
    }

    method DividerCells(bytes: seq<bv8>, x0: nat)
      requires Valid()
      modifies `calls
      ensures Valid() && State() == DividerFrom(Here(), old(State()), x0, bytes)
    {
      hide LinkTable, Put;
      ghost var target := DividerFrom(Here(), State(), x0, bytes);
      var x := x0;
      while x + FONT_ADVANCE <= RIGHT
        invariant Valid() && DividerFrom(Here(), State(), x, bytes) == target
        decreases RIGHT - x
      {
        DrawOnRow(Symbol(x, bytes, true));
        x := x + FONT_ADVANCE;
      }
    }

    method OnFieldOf(f: Field, style: Style)
      requires Valid() && Chunked(f.caption, 0)
      modifies `calls, `pen
      ensures Valid() && State() == OnField(Here(), old(State()), f, style)
    {
      hide LinkTable, EmitRun, OnTextField, OnMark;
      pen := pen.(depth := style.depth);
      if !pen.rowOpen {
        pen := pen.(x := Left());
      }
      if f.kind == TextField {
        TextFieldBar(f, style);
        return;
      }
      DrawMark(f);
      if f.caption != [] {
        EmitText(OneSpace(), pen.invert);
        EmitText(f.caption, pen.invert);
      }
    }

    method TextFieldBar(f: Field, style: Style)
      requires Valid()
      modifies `calls, `pen
      ensures Valid() && State() == OnTextField(Here(), old(State()), f, style)
    {
      hide LinkTable, Put, PutIf, PaintBg, Moved, Luma, ChunkAt;
      var w := FieldWidth(f);
      var hasBg := HasBg(style.bg);
      var luma := if hasBg then Luma(style.bg) else 255;
      var dark := hasBg && luma < 128;
      if dark {
        DrawOnRow(Fill(pen.x, BarWidth(State(), f), RowH(), true));
      } else if hasBg {
        PaintBackground(pen.x, BarWidth(State(), f), luma);
      }
      FieldCells(f, hasBg, !dark);
    }

    method FieldCells(f: Field, hasBg: bool, inkBlack: bool)
      requires Valid()
      modifies `calls, `pen
      ensures Valid() && State() == FieldCols(Here(), old(State()), f, 0, 0, hasBg, inkBlack)
    {
      hide LinkTable, Put, PutIf, Moved, ChunkAt;
      ghost var target := FieldCols(Here(), State(), f, 0, 0, hasBg, inkBlack);
      var vk: nat := 0;
      var col := 0;
      while col < FieldWidth(f) && pen.x + FONT_ADVANCE <= RIGHT
        invariant Valid() && 0 <= col
        invariant FieldCols(Here(), State(), f, col, vk, hasBg, inkBlack) == target
        decreases FieldWidth(f) - col
      {
        if vk < |f.value| {
          DrawOnRow(Symbol(pen.x, if f.masked then [0x2A] else ChunkAt(f.value, vk), inkBlack));
          vk := vk + SeqLen(f.value[vk]);
        } else {
          DrawIf(!hasBg, Symbol(pen.x, [0x5F], true));
        }
        MovePen(FONT_ADVANCE);
        col := col + 1;
      }
    }

    method DrawMark(f: Field)
      requires Valid()
      modifies `calls, `pen
      ensures Valid() && State() == OnMark(Here(), old(State()), f)
    {
      hide LinkTable, Put, PutIf, Moved;
      if f.kind == Radio {
        DrawOnRow(Symbol(pen.x, if f.prechecked then [0xE2, 0x97, 0x8F] else [0xE2, 0x97, 0x8B], !pen.invert));
      } else {
        DrawOnRow(Symbol(pen.x, [0xE2, 0x96, 0xA1], !pen.invert));
        DrawIf(f.prechecked, Symbol(pen.x, [0xE2, 0x9C, 0x93], !pen.invert));
      }
      MovePen(FONT_ADVANCE);
    }

    method OnLineEndOf(style: Style)
      requires Valid()
      modifies `calls, `pen
      ensures Valid() && State() == OnLineEnd(Here(), old(State()), style)
    {
      hide LinkTable, Put, Closed;
      var head := pen.head;
      pen := pen.(depth := style.depth);
      DrawIf(pen.headRule && pen.rowOpen, Rule(Left(), RowH() - 1, RuleWidth(State(), style), true));
      CloseRow(style, head);
    }

    method CloseRow(style: Style, head: nat)
      modifies `pen
      ensures State() == Closed(Here(), old(State()), style, head)
    {
      hide LinkTable;
      NewRow();
      pen := pen.(headRule := false, rowH := 0, head := 0, bold := false, invert := false);
      if style.heading {
        pen := pen.(y := pen.y + if head == 1 then HEAD_GAP_BIG else PARA_GAP);
      }
    }

    method BlankLine()
      modifies `pen
      ensures State() == OnBlank(Here(), old(State()))
    {
      if pen.blankPending {
        return;
      }
      pen := pen.(y := pen.y + LINE_H + cfg.leading, blankPending := true);
    }

    // ---- Tables -------------------------------------------------------

    method FlushTable(rows: seq<Row>, widths: seq<nat>, style: Style)
      requires Valid() && TableShape(rows, widths)
      modifies `calls, `pen, colW
      ensures Valid() && State() == TableFlush(Here(), Deepened(old(State()), style.depth), rows, widths)
    {
      hide LinkTable, Put, TableRows, Fitted, RowChunked;
      pen := pen.(depth := style.depth);
      if |rows| == 0 || |widths| == 0 {
        return;
      }
      FitTable(widths);
      DrawRows(rows, colW[..|widths|]);
      DrawOnRow(Rule(Left(), 0, RIGHT - Left(), true));
      pen := pen.(y := pen.y + PARA_GAP);
    }

    method FitTable(widths: seq<nat>)
      requires Valid() && 0 < |widths| <= T_COLS
      modifies colW
      ensures Valid() && colW[..|widths|] == Fitted(widths, TableAvail(State()))
    {
      hide LinkTable, Fitted;
      forall c | 0 <= c < |widths| {
        colW[c] := widths[c];
      }
      assert colW[..|widths|] == widths;
      FitColumns(colW, |widths|, (RIGHT - Left()) / 6);
    }

    method DrawRows(rows: seq<Row>, fit: seq<nat>)
      requires Valid() && TableShape(rows, fit)
      modifies `calls, `pen
      ensures Valid() && State() == TableRows(Here(), old(State()), rows, fit, 0)
    {
      hide LinkTable, TableRow, RowChunked;
      ghost var target := TableRows(Here(), State(), rows, fit, 0);
      var r := 0;
      while r < |rows|
        invariant Valid() && 0 <= r <= |rows|
        invariant TableRows(Here(), State(), rows, fit, r) == target
      {
        DrawRow(rows[r], fit, r == 0);
        r := r + 1;
      }
    }

    method TallestCell(row: Row, fit: seq<nat>) returns (lines: nat)
      requires |row| == |fit|
      ensures lines == RowLines(row, fit, |row|)
    {
      lines := 1;
      for c := 0 to |row|
        invariant lines == RowLines(row, fit, c)
      {
        if row[c] != [] && fit[c] != 0 {
          var need := CountLines(row[c], fit[c]);
          if need > lines {
            lines := need;
          }
        }
      }
    }

    method DrawRow(row: Row, fit: seq<nat>, header: bool)
      requires Valid() && |row| == |fit| && RowChunked(row)
      modifies `calls, `pen
      ensures Valid() && State() == TableRow(Here(), old(State()), row, fit, header)
    {
      hide LinkTable, Put, TableLine, RowLines;
      var lines := TallestCell(row, fit);
      ghost var target := TableLines(Here(), State(), row, fit, 0, lines);
      var ln := 0;
      while ln < lines
        invariant Valid() && 0 <= ln <= lines
        invariant TableLines(Here(), State(), row, fit, ln, lines) == target
      {
        DrawTableLine(row, fit, ln);
        ln := ln + 1;
      }
      DrawIf(header, Rule(Left(), -1, RIGHT - Left(), true));
    }

    method DrawTableLine(row: Row, fit: seq<nat>, ln: nat)
      requires Valid() && |row| == |fit| && RowChunked(row)
      modifies `calls, `pen
      ensures Valid() && State() == TableLine(Here(), old(State()), row, fit, ln)
    {
      hide LinkTable, CellsOn, Gutters;
      if RowVisible() {
        var x0 := Left();
        DrawCells(row, fit, ln, x0);
        DrawGutters(fit, x0);
      }
      pen := pen.(y := pen.y + LINE_H + cfg.leading, rowOpen := false);
      pen := pen.(x := Left());
    }

    method DrawCells(row: Row, fit: seq<nat>, ln: nat, x0: U16)
      requires Valid() && |row| == |fit| && RowChunked(row)
      modifies `calls, `pen
      ensures Valid() && State() == CellsOn(Here(), old(State()), row, fit, ln, 0, x0)
    {
      hide LinkTable, EmitRun, Slice;
      ghost var target := CellsOn(Here(), State(), row, fit, ln, 0, x0);
      var x: U16 := x0;
      var c := 0;
      while c < |row|
        invariant Valid() && 0 <= c <= |row|
        invariant CellsOn(Here(), State(), row, fit, ln, c, x) == target
      {
        var slice := SliceBytes(row[c], fit[c], ln);
        if slice != [] {
          pen := pen.(x := x, rowOpen := true);
          EmitText(slice, false);
        }
        x := Wrap16(x + (fit[c] + GAP) * 6);
        c := c + 1;
      }
    }

    method SliceBytes(p: seq<bv8>, w: nat, ln: nat) returns (t: seq<bv8>)
      requires Chunked(p, 0)
      ensures t == Slice(p, w, ln)
    {
      var from, to := SliceOf(p, w, ln);
      LineStartChunked(p, w, ln);
      LineShape(p, LineStart(p, w, ln), w);
      if from >= |p| {
        TakeEndAdvances(p, from, w);
        assert Slice(p, w, ln) == p[LineStart(p, w, ln)..BreakAt(p, LineStart(p, w, ln), w)];
      }
      t := if from < to && to <= |p| then p[from..to] else [];
    }

    method DrawGutters(fit: seq<nat>, x0: U16)
      requires Valid()
      modifies `calls
      ensures Valid() && State() == Gutters(Here(), old(State()), fit, 0, x0)
    {
      hide LinkTable, PutAnyway;
      ghost var target := Gutters(Here(), State(), fit, 0, x0);
      var sx: U16 := x0;
      var c := 0;
      while c + 1 < |fit|
        invariant Valid() && 0 <= c
        invariant Gutters(Here(), State(), fit, c, sx) == target
      {
        sx := Wrap16(sx + (fit[c] + GAP) * 6);
        var at: int := sx;
        DrawAnyway(Fill(Wrap16(at - 4), 1, LINE_H + cfg.leading, true));
        c := c + 1;
      }
    }

    // ---- The dispatch -------------------------------------------------

    method OnImageOf(alt: seq<bv8>, url: seq<bv8>, style: Style)
      requires Valid() && Chunked(alt, 0) && Chunked(url, 0)
      modifies `calls, `pen
      ensures Valid() && State() == OnImage(Here(), old(State()), alt, url, style)
    {
      hide LinkTable, EmitRun;
      pen := pen.(depth := style.depth);
      EmitText(Ascii([0x5B, 0x69, 0x6D, 0x67, 0x5D, 0x20]), pen.invert);
      EmitText(if alt != [] then alt else url, pen.invert);
    }

    method OnPartialOf(url: seq<bv8>, style: Style)
      requires Valid() && Chunked(url, 0)
      modifies `calls, `pen, `links, `linksOverflowed
      ensures Valid() && State() == OnPartial(Here(), old(State()), url, style)
    {
      hide LinkTable, EmitRun, OnLink;
      pen := pen.(depth := style.depth);
      EmitText(Ascii([0x5B, 0x2B, 0x5D, 0x20]), pen.invert);
      OnLinkTo(url, url, style);
    }

    /** One parser callback: the layout moves by the specified step, seen through this frame's window. */
    method Handle(cb: Callback)
      requires Valid() && WellFormed(cb)
      modifies this, colW
      ensures Valid() && scroll == old(scroll)
      ensures State() == Step(Here(), old(State()), cb)
    {
      hide LinkTable, OnText, OnLink, OnDivider, OnField, OnLineEnd, TableFlush, OnImage, OnPartial, OnBlank;
      match cb {
        case Text(t, style) => OnTextRun(t, style);
        case LinkTo(caption, target, style) => OnLinkTo(caption, target, style);
        case Divider(ch, style) => OnDividerOf(ch, style);
        case FieldOf(f, style) => OnFieldOf(f, style);
        case LineEnd(style) => OnLineEndOf(style);
        case Table(rows, widths, style) => FlushTable(rows, widths, style);
        case Image(alt, url, style) => OnImageOf(alt, url, style);
        case Partial(url, style) => OnPartialOf(url, style);
        case Blank => BlankLine();
      }
    }
  }
}
