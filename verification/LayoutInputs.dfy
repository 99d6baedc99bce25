// Callback sequences from a fresh renderer that break what one would expect of a page.
module LayoutInputs {
  import opened Wrappers
  import opened Geometry
  import opened Utf8
  import opened Chunks
  import opened CellWalk
  import opened TableFit
  import opened LayoutTypes
  import opened LayoutSpec
  import opened LayoutWalk
  import opened LayoutTables
  import opened LayoutColumns
  import opened LayoutScroll
  import opened LayoutHeights
  import opened LayoutRows
  import opened LayoutUniform
  import opened LayoutRects
  import opened LayoutLinks

  // ---- One letter -----------------------------------------------------

  function Letter(): (t: seq<bv8>)
    ensures Chunked(t, 0) && t == [0x61]
  {
    Ascii([0x61])
  }

  // One letter that fits its row is one cell.
  lemma OneLetter(g: Page, s: Layout, invert: bool)
    requires !s.pen.literal && s.pen.x < 300 && (s.pen.rowOpen || s.pen.x >= Indent(s))
    ensures EmitRun(g, s, Letter(), invert) == Moved(CellOf(g, s, [0x61], invert), Pace(s))
  {
    var t := Letter();
    LetterShape();
    LetterToken(g, s, invert);
    hide Token, SkipBlankish, WordEnd, Chunked, CellOf;
    var m := Token(g, s, t, 0, 0, 1, invert);
    assert Tokens(g, m, t, 1, invert) == m;
    assert Tokens(g, s, t, 0, invert) == m;
  }

  lemma LetterShape()
    ensures var t := Letter();
      && Chunked(t, 1) && SkipBlankish(t, 0) == 0 && WordEnd(t, 0) == 1 && SeqLen(t[0]) == 1
      && ChunkCount(t, 1, 1) == 0 && ChunkCount(t, 0, 1) == 1 && ChunkAt(t, 0) == t
  {
    var t := Letter();
    assert SeqLen(t[0]) == 1;
    assert WordEnd(t, 1) == 1;
  }

  lemma LetterToken(g: Page, s: Layout, invert: bool)
    requires s.pen.x < 300
    ensures Token(g, s, Letter(), 0, 0, 1, invert) == Moved(CellOf(g, s, [0x61], invert), Pace(s))
  {
    hide CellOf, Newline, Lead, LongWord;
    var t := Letter();
    LetterShape();
    var m := Moved(CellOf(g, s, t, invert), Pace(s));
    assert Word(g, m, t, 1, 1, invert) == m;
    assert LeadWidth(s, 0, 0) == 0 && WordWidth(s, t, 0, 1) == Pace(s);
  }

  /** A plain heading of depth at most one. */
  predicate Heading(style: Style) {
    style.heading && style.depth <= 1 && style.align == Left && !HasBg(style.bg) && !style.literal && !style.underline
  }

  /** A page whose big face carries the letter. */
  predicate BigLetters(cfg: Config) {
    cfg.head2x && cfg.has(Big, InlineCp([0x61], 0))
  }

  lemma HeadingLetter(g: Page, style: Style)
    requires BigLetters(g.cfg) && Heading(style) && Seen(g.view, 0)
    ensures var s := OnText(g, Fresh(), Letter(), style);
      && |s.log| == 1 && s.log[0].shape.Glyph? && s.log[0].shape.face == Big && s.log[0].h == 26 + g.cfg.leading
      && s.log[0].row == ScreenY(g.view, 0)
      && s.pen == Pen(0, s.pen.x, true, style.depth, false, false, false, false, s.pen.bgLuma, false, 1, false, false, 26 + g.cfg.leading)
      && s.pen.x == Indent(s) + 12
  {
    hide EmitRun, HasBg, FaceOf, Luma;
    var t := Letter();
    assert SeqLen(t[0]) == 1;
    assert AllIn(g, Big, t, 1);
    assert AllIn(g, Big, t, 0);
    var s1 := Styled(g, Fresh(), t, style);
    OneLetter(g, s1, s1.pen.invert);
    BigFace(g, s1);
  }

  lemma BigFace(g: Page, s: Layout)
    requires s.pen.head == 1
    ensures forall bytes :: FaceOf(g, s, bytes) == Big
  {
  }

  lemma RunTwo(g: Page, s: Layout, a: Callback, b: Callback)
    requires WellFormed(a) && WellFormed(b)
    ensures Run(g, s, [a, b]) == Step(g, Step(g, s, a), b)
  {
    hide Step, WellFormed;
    var s1 := Step(g, s, a);
    assert Run(g, Step(g, s1, b), []) == Step(g, s1, b);
    assert [a, b][1..] == [b] && Run(g, s1, [b]) == Step(g, s1, b);
  }

  lemma RunOne(g: Page, s: Layout, a: Callback)
    requires WellFormed(a)
    ensures Run(g, s, [a]) == Step(g, s, a)
  {
    hide Step, WellFormed;
    assert Run(g, Step(g, s, a), []) == Step(g, s, a);
  }

  // ---- Rows that are not uniform --------------------------------------

  /** The whole page, or the device's frame at the top of it: either way its first two rows are drawn where
      they stand. */
  predicate TopView(g: Page) {
    g.view == All || (g.view == Window(0) && g.cfg.leading <= 200)
  }

  lemma TopRow(g: Page, y: nat)
    requires TopView(g) && y <= LineHeight(g)
    ensures Seen(g.view, y) && LaidOut(g.view, y) && ScreenY(g.view, y) == y
  {
  }

  lemma Breaks(log: seq<Draw>, i: nat, j: nat)
    requires i < j < |log| && !RowOrder(log[i], log[j])
    ensures !RowsOk(log)
  {
  }

  /** A blank line in the middle of a heading is enough: the pen moves down by a body row while the heading's
      taller row is still open, and the next glyph overlaps the one above. */
  lemma BlankMidHeadingOverlaps(g: Page, style: Style, target: seq<bv8>)
    requires TopView(g) && BigLetters(g.cfg) && Heading(style)
    ensures var cbs := [Text(Letter(), style), Blank, LinkTo(Letter(), target, style)];
      (forall i :: 0 <= i < 3 ==> WellFormed(cbs[i])) && !RowsOk(Run(g, Fresh(), cbs).log)
  {
    hide EmitRun, HasBg, FaceOf, RowsOk, OnText, OnLink, ScreenY, Seen;
    var cbs := [Text(Letter(), style), Blank, LinkTo(Letter(), target, style)];
    TopRow(g, 0);
    HeadingLetter(g, style);
    var s1 := OnText(g, Fresh(), Letter(), style);
    var s2 := OnBlank(g, s1);
    TopRow(g, s2.pen.y);
    LinkLetter(g, s2, target, style);
    RunTwo(g, s1, cbs[1], cbs[2]);
    assert cbs[1..] == [cbs[1], cbs[2]];
    Breaks(OnLink(g, s2, Letter(), target, style).log, 0, 1);
  }

  // The second letter, on the row the pen has reached.
  lemma LinkLetter(g: Page, s: Layout, target: seq<bv8>, style: Style)
    requires Seen(g.view, s.pen.y) && ScreenY(g.view, s.pen.y) == s.pen.y
    requires !s.pen.literal && !s.pen.hasBg && !s.pen.invert && !s.pen.underline && s.pen.head == 1 && s.pen.rowOpen
    requires |s.log| == 1 && s.pen.x < 300
    ensures var log := OnLink(g, s, Letter(), target, style).log;
      |log| >= 2 && log[0] == s.log[0] && log[1].shape.Glyph? && log[1].row == s.pen.y
  {
    hide FaceOf, EmitRun, ScreenY, Seen;
    OneLetter(g, LinkStart(s, style), false);
  }

  /** Preformatted text after a heading's letter on one row: two advances on it. */
  lemma LiteralMidHeadingMixes(g: Page, style: Style)
    requires TopView(g) && BigLetters(g.cfg) && Heading(style)
    ensures var cbs := [Text(Letter(), style), Text(Letter(), style.(literal := true))];
      (forall i :: 0 <= i < 2 ==> WellFormed(cbs[i])) && !RowsOk(Run(g, Fresh(), cbs).log)
  {
    hide EmitRun, HasBg, RowsOk, OnText, ScreenY, Seen;
    var cbs := [Text(Letter(), style), Text(Letter(), style.(literal := true))];
    TopRow(g, 0);
    HeadingLetter(g, style);
    var s1 := OnText(g, Fresh(), Letter(), style);
    RunTwo(g, Fresh(), cbs[0], cbs[1]);
    LiteralLetter(g, s1, style.(literal := true));
    Breaks(OnText(g, s1, Letter(), style.(literal := true)).log, 0, 1);
  }

  lemma LiteralLetter(g: Page, s: Layout, style: Style)
    requires Seen(g.view, s.pen.y) && style.literal && !HasBg(style.bg) && s.pen.rowOpen && s.pen.x < 300
    ensures var b := OnText(g, s, Letter(), style);
      b.log == s.log + [Draw(ScreenY(g.view, s.pen.y), RowHeight(g, s), Glyph(Body, s.pen.x, [0x61], true))]
  {
    hide AlignedX, TakesHead, Luma, HasBg, ScreenY, Seen;
    StyledOnRow(g, s, Letter(), style);
    var s1 := Styled(g, s, Letter(), style);
    var t := Letter();
    assert SeqLen(t[0]) == 1;
    assert ChunkAt(t, 0) == [0x61];
    var c := LiteralCellOf(g, s1, ChunkAt(t, 0), false);
    assert LiteralFrom(g, c, t, 1, false) == c;
    assert LiteralFrom(g, s1, t, 0, false) == c;
  }

  lemma StyledOnRow(g: Page, s: Layout, t: seq<bv8>, style: Style)
    requires s.pen.rowOpen
    ensures var b := Styled(g, s, t, style);
      && b.log == s.log && b.pen.x == s.pen.x && b.pen.y == s.pen.y && b.pen.rowOpen && b.pen.literal == style.literal && b.pen.rowH == s.pen.rowH
      && b.pen.invert == (HasBg(style.bg) && Luma(style.bg) < 128)
  {
    hide Luma, HasBg, AllIn, Cells;
  }

  /** A text field of one cell holding a letter. */
  function OneCell(): Field {
    Field(TextField, 1, false, false, [0x62], [])
  }

  lemma CellLetter(g: Page, s: Layout, style: Style)
    requires Seen(g.view, s.pen.y) && !HasBg(style.bg) && s.pen.rowOpen && s.pen.x < 300
    ensures var b := OnField(g, s, OneCell(), style);
      b.log == s.log + [Draw(ScreenY(g.view, s.pen.y), RowHeight(g, s), Symbol(s.pen.x, [0x62], true))]
  {
    hide HasBg, ScreenY, Seen;
    var f := OneCell();
    assert SeqLen(f.value[0]) == 1;
    var s1 := ToMargin(Deepened(s, style.depth));
    assert ChunkAt(f.value, 0) == [0x62];
    var c := Moved(FieldCell(g, s1, f, 0, false, true), FONT_ADVANCE);
    assert FieldCols(g, c, f, 1, 1, false, true) == c;
    assert FieldCols(g, s1, f, 0, 0, false, true) == c;
  }

  /** A text field on the row of a heading's letter: its value in the body face, six pixels wide next to
      twelve. */
  lemma FieldMidHeadingMixes(g: Page, style: Style)
    requires TopView(g) && BigLetters(g.cfg) && Heading(style)
    ensures var cbs := [Text(Letter(), style), FieldOf(OneCell(), style)];
      (forall i :: 0 <= i < 2 ==> WellFormed(cbs[i])) && !RowsOk(Run(g, Fresh(), cbs).log)
  {
    hide EmitRun, HasBg, RowsOk, OnText, OnField, ScreenY, Seen;
    var cbs := [Text(Letter(), style), FieldOf(OneCell(), style)];
    TopRow(g, 0);
    HeadingLetter(g, style);
    var s1 := OnText(g, Fresh(), Letter(), style);
    RunTwo(g, Fresh(), cbs[0], cbs[1]);
    CellLetter(g, s1, style);
    Breaks(OnField(g, s1, OneCell(), style).log, 0, 1);
  }

  /** With a blank line between them the field is drawn across the lower half of the letter. */
  lemma FieldBelowHeadingOverlaps(g: Page, style: Style)
    requires TopView(g) && BigLetters(g.cfg) && Heading(style)
    ensures var cbs := [Text(Letter(), style), Blank, FieldOf(OneCell(), style)];
      (forall i :: 0 <= i < 3 ==> WellFormed(cbs[i])) && !RowsOk(Run(g, Fresh(), cbs).log)
  {
    hide EmitRun, HasBg, RowsOk, OnText, OnField, ScreenY, Seen;
    var cbs := [Text(Letter(), style), Blank, FieldOf(OneCell(), style)];
    TopRow(g, 0);
    HeadingLetter(g, style);
    var s1 := OnText(g, Fresh(), Letter(), style);
    var s2 := OnBlank(g, s1);
    TopRow(g, s2.pen.y);
    CellLetter(g, s2, style);
    RunTwo(g, s1, cbs[1], cbs[2]);
    assert cbs[1..] == [cbs[1], cbs[2]];
    Breaks(OnField(g, s2, OneCell(), style).log, 0, 1);
  }

  lemma {:induction false} DividerAdds(g: Page, s: Layout, x: nat, bytes: seq<bv8>)
    ensures s.log <= DividerFrom(g, s, x, bytes).log
    decreases RIGHT - x
  {
    if x + FONT_ADVANCE <= RIGHT {
      DividerAdds(g, Put(g, s, Symbol(x, bytes, true)), x + FONT_ADVANCE, bytes);
    }
  }

  /** A divider there fills the heading's row with characters of the body face. */
  lemma DividerMidHeadingMixes(g: Page, style: Style, ch: bv32)
    requires TopView(g) && BigLetters(g.cfg) && Heading(style)
    ensures var cbs := [Text(Letter(), style), Divider(ch, style)];
      (forall i :: 0 <= i < 2 ==> WellFormed(cbs[i])) && !RowsOk(Run(g, Fresh(), cbs).log)
  {
    hide EmitRun, HasBg, RowsOk, OnText, ScreenY, Seen, DividerBytes, DividerFrom;
    var cbs := [Text(Letter(), style), Divider(ch, style)];
    TopRow(g, 0);
    HeadingLetter(g, style);
    var s1 := OnText(g, Fresh(), Letter(), style);
    RunTwo(g, Fresh(), cbs[0], cbs[1]);
    var s2 := ToMargin(Deepened(s1, style.depth));
    FirstFilled(g, s2, DividerBytes(ch));
    Breaks(OnDivider(g, s1, ch, style).log, 0, 1);
  }

  lemma FirstFilled(g: Page, s: Layout, bytes: seq<bv8>)
    requires Seen(g.view, s.pen.y)
    ensures var b := DividerFrom(g, s, Indent(s), bytes);
      s.log + [Draw(ScreenY(g.view, s.pen.y), RowHeight(g, s), Symbol(Indent(s), bytes, true))] <= b.log
  {
    hide Seen, ScreenY;
    var c := Put(g, s, Symbol(Indent(s), bytes, true));
    DividerAdds(g, c, Indent(s) + FONT_ADVANCE, bytes);
  }

  /** A table of two rows after a heading's letter: its lines advance by a body row in the heading's face. */
  lemma TableMidHeadingOverlaps(g: Page, style: Style)
    requires TopView(g) && BigLetters(g.cfg) && Heading(style)
    ensures var rows: seq<Row> := [[Letter()], [Letter()]];
      var cbs := [Text(Letter(), style), Table(rows, [1], style)];
      (forall i :: 0 <= i < 2 ==> WellFormed(cbs[i])) && !RowsOk(Run(g, Fresh(), cbs).log)
  {
    hide EmitRun, HasBg, RowsOk, OnText, TableFlush, Fitted, ScreenY, Seen;
    var rows: seq<Row> := [[Letter()], [Letter()]];
    var cbs := [Text(Letter(), style), Table(rows, [1], style)];
    LetterTable();
    TopRow(g, 0);
    HeadingLetter(g, style);
    var s1 := OnText(g, Fresh(), Letter(), style);
    RunTwo(g, Fresh(), cbs[0], cbs[1]);
    TwoLetters(g, Deepened(s1, style.depth));
    Breaks(TableFlush(g, Deepened(s1, style.depth), rows, [1]).log, 0, 3);
  }

  lemma LetterTable()
    ensures TableShape([[Letter()], [Letter()]], [1]) && Natural([[Letter()], [Letter()]], [1])
  {
    var rows: seq<Row> := [[Letter()], [Letter()]];
    assert SeqLen(0x61) == 1;
    assert CellsFrom(Letter(), 1) == 0;
    assert Cells(Letter()) == 1;
    assert WidestCell(rows, 0, 0) == 0 && WidestCell(rows, 0, 1) == 1 && WidestCell(rows, 0, 2) == 1;
  }

  lemma OneColumn(avail: nat)
    requires 6 < avail <= 66
    ensures Fitted([1], avail) == [1]
  {
    assert Capped([1], avail / 2) == [1];
    assert Sum([1]) == 1 by { SumSnoc([], 1); assert [] + [1] == [1]; }
  }

  lemma LetterCell()
    ensures Slice(Letter(), 1, 0) == Letter() && RowLines([Letter()], [1], 1) == 1
  {
    var t := Letter();
    assert SeqLen(t[0]) == 1;
    assert TakeEnd(t, 1, 0) == 1 && TakeEnd(t, 0, 1) == 1;
    assert BreakAt(t, 0, 1) == 1 && LineStart(t, 1, 0) == 0;
    NextLineAdvances(t, 0, 1);
    assert SkipSpaces(t, 1) == 1;
    assert Lines(t, 1, 1) == 0 && Lines(t, 0, 1) == 1;
    assert RowLines([t], [1], 0) == 1;
  }

  // The heading's letter, the first row's and the rule under it, and the second row's.
  lemma TwoLetters(g: Page, s: Layout)
    requires TopView(g) && s.pen.y == 0 && s.pen.head == 1 && !s.pen.literal && !s.pen.hasBg && !s.pen.underline && |s.log| == 1
    ensures TableShape([[Letter()], [Letter()]], [1])
    ensures var log := TableFlush(g, s, [[Letter()], [Letter()]], [1]).log;
      |log| >= 4 && log[0] == s.log[0] && log[3].shape.Glyph? && log[3].row == LineHeight(g)
  {
    hide TableRow, Fitted, Seen, ScreenY;
    LetterTable();
    var rows: seq<Row> := [[Letter()], [Letter()]];
    AvailExact(s);
    OneColumn(TableAvail(s));
    TopRow(g, 0);
    TopRow(g, LineHeight(g));
    LetterLine(g, s, true);
    var s1 := TableRow(g, s, [Letter()], [1], true);
    LetterLine(g, s1, false);
    var s2 := TableRow(g, s1, [Letter()], [1], false);
    assert TableRows(g, s2, rows, [1], 2) == s2;
    assert TableRows(g, s1, rows, [1], 1) == s2;
    assert TableRows(g, s, rows, [1], 0) == s2;
  }

  // A row of one letter leaves it on its line and the pen a body row below.
  lemma LetterLine(g: Page, s: Layout, header: bool)
    requires Seen(g.view, s.pen.y) && LaidOut(g.view, s.pen.y) && ScreenY(g.view, s.pen.y) == s.pen.y
    requires header ==> Seen(g.view, s.pen.y + LineHeight(g))
    requires s.pen.head == 1 && !s.pen.literal && !s.pen.hasBg && !s.pen.underline
    ensures RowChunked([Letter()])
    ensures var b := TableRow(g, s, [Letter()], [1], header);
      && b.pen == s.pen.(y := s.pen.y + LineHeight(g), x := Indent(s), rowOpen := false)
      && |b.log| == |s.log| + (if header then 2 else 1) && b.log[..|s.log|] == s.log
      && b.log[|s.log|].shape.Glyph? && b.log[|s.log|].row == s.pen.y
  {
    hide FaceOf, Slice, RowLines, EmitRun, Seen, ScreenY, LaidOut;
    LetterCell();
    var row: Row := [Letter()];
    var a := AtColumn(s, Indent(s));
    OneLetter(g, a, false);
    var c := Moved(CellOf(g, a, [0x61], false), Pace(a));
    var glyph := Draw(s.pen.y, RowHeight(g, s), Glyph(FaceOf(g, a, [0x61]), a.pen.x, [0x61], true));
    assert c.log == s.log + [glyph];
    assert CellsOn(g, c, row, [1], 0, 1, Wrap16(Indent(s) + 12)) == c;
    assert LineDrawn(g, s, row, [1], 0) == c;
    var d := TableLine(g, s, row, [1], 0);
    assert TableLines(g, d, row, [1], 1, 1) == d;
    assert TableLines(g, s, row, [1], 0, 1) == d;
  }

  // ---- Tables that move the page --------------------------------------

  /** Three wide columns and three of one letter: the floors push them past the page, the last letter wraps
      inside its cell, and the page is a row taller in the frame at its top than in the one beyond it. */
  lemma OverflowingTableMovesThePage(cfg: Config, style: Style)
    requires style.depth == 0 && cfg.leading <= 255
    ensures var widths := [33, 33, 33, 1, 1, 1];
      var cb := Table([LetterRow(widths)], widths, style);
      WellFormed(cb) && Run(In(cfg, PAST), Fresh(), [cb]).pen.y < Run(In(cfg, 0), Fresh(), [cb]).pen.y
  {
    hide TableFlush, WidthsHold, LetterRow;
    var widths: seq<nat> := [33, 33, 33, 1, 1, 1];
    var cb := Table([LetterRow(widths)], widths, style);
    LetterRowNatural(widths);
    var s := Deepened(Fresh(), 0);
    SixOver(s.pen);
    OverTableMoves(cfg, s, widths);
    RunOne(In(cfg, PAST), Fresh(), cb);
    RunOne(In(cfg, 0), Fresh(), cb);
  }

  lemma SixOver(pen: Pen)
    requires pen.head == 0 && !pen.literal && pen.depth == 0
    ensures !WidthsHold(pen, [33, 33, 33, 1, 1, 1])
  {
    hide Fitted, ColumnsHold;
    FloorOverflows();
    SixColumns(pen);
  }

  // At the top of a page, a table of letters whose columns pass the margin.
  lemma OverTableMoves(cfg: Config, s: Layout, widths: seq<nat>)
    requires 0 < |widths| <= T_COLS && !WidthsHold(s.pen, widths) && s.pen.y == 0 && cfg.leading <= 255
    ensures TableShape([LetterRow(widths)], widths)
    ensures TableFlush(In(cfg, PAST), s, [LetterRow(widths)], widths).pen.y < TableFlush(In(cfg, 0), s, [LetterRow(widths)], widths).pen.y
  {
    hide TableFlush, Fitted, LetterRow, WidthsHold, TableSafe, WrapsOf;
    LetterRowNatural(widths);
    OverWidthsAreUnsafe(s.pen, widths);
    OneRowBeyond(cfg, s, LetterRow(widths), widths);
    var scroll := UnsafeShows(cfg, s, [LetterRow(widths)], widths);
  }

  lemma SixColumns(pen: Pen)
    requires pen.head == 0 && !pen.literal && pen.depth == 0
    ensures !ColumnsHold(pen, [33, 33, 33, 1, 1, 1], [19, 19, 19, 2, 2, 2], 0, 2)
  {
    var widths, fit: seq<nat> := [33, 33, 33, 1, 1, 1], [19, 19, 19, 2, 2, 2];
    hide ColumnsHold, Wrap16;
    LastOver(pen, widths, fit, 5, 398);
    BeforeOver(pen, widths, fit, 4, 380, 398);
    BeforeOver(pen, widths, fit, 3, 362, 380);
    BeforeOver(pen, widths, fit, 2, 242, 362);
    BeforeOver(pen, widths, fit, 1, 122, 242);
    BeforeOver(pen, widths, fit, 0, 2, 122);
  }

  lemma LastOver(pen: Pen, widths: seq<nat>, fit: seq<nat>, c: nat, x: U16)
    requires pen.head == 0 && c < |widths| == |fit| && widths[c] == 1 && fit[c] == 2 && x == RIGHT
    ensures !ColumnsHold(pen, widths, fit, c, x)
  {
    assert Pace(Layout(pen, [])) == 6;
  }

  lemma BeforeOver(pen: Pen, widths: seq<nat>, fit: seq<nat>, c: nat, x: U16, next: U16)
    requires c < |widths| == |fit| && next == x + 6 * fit[c] + 6 && !ColumnsHold(pen, widths, fit, c + 1, next)
    ensures !ColumnsHold(pen, widths, fit, c, x)
  {
    hide Pace;
    assert Wrap16(x + (fit[c] + GAP) * 6) == next;
  }

  /** Two columns that fit in the body face wrap in a heading's: a table that begins while one is open moves
      the page too. */
  lemma HeadingTableMovesThePage(cfg: Config, style: Style)
    requires BigLetters(cfg) && Heading(style) && cfg.leading <= 255
    ensures var widths := [30, 30];
      var cbs := [Text(Letter(), style), Table([LetterRow(widths)], widths, style)];
      && WellFormed(cbs[0]) && WellFormed(cbs[1])
      && (style.depth == 0 ==> ColumnsFit(widths, 66))
      && Run(In(cfg, PAST), Fresh(), cbs).pen.y < Run(In(cfg, 0), Fresh(), cbs).pen.y
  {
    hide TableFlush, WidthsHold, LetterRow, OnText, HasBg;
    var widths: seq<nat> := [30, 30];
    var rows := [LetterRow(widths)];
    var cbs := [Text(Letter(), style), Table(rows, widths, style)];
    LetterRowNatural(widths);
    HeadingLetter(In(cfg, 0), style);
    var a, p := OnText(In(cfg, 0), Fresh(), Letter(), style), OnText(In(cfg, PAST), Fresh(), Letter(), style);
    TextBelow(In(cfg, 0), In(cfg, PAST), Fresh(), Fresh(), 0, Letter(), style);
    var s := Deepened(a, style.depth);
    TwoColumns(s.pen, style.depth);
    OverTableMoves(cfg, s, widths);
    FlushPenOnly(In(cfg, PAST), s, Deepened(p, style.depth), rows, widths);
    RunTwo(In(cfg, PAST), Fresh(), cbs[0], cbs[1]);
    RunTwo(In(cfg, 0), Fresh(), cbs[0], cbs[1]);
  }

  lemma TwoColumns(pen: Pen, depth: nat)
    requires pen.head == 1 && !pen.literal && pen.depth == depth <= 1
    ensures !WidthsHold(pen, [30, 30]) && ColumnsFit([30, 30], 66)
  {
    AvailExact(Layout(pen, []));
    TwoFit(TableAvail(Layout(pen, [])));
    TwoFit(66);
    TwoSum();
    hide Fitted;
    TwoOver(pen);
  }

  lemma TwoSum()
    ensures Sum([30, 30]) == 60
  {
    assert Sum([30]) == 30 by { SumSnoc([], 30); assert [] + [30] == [30]; }
    SumSnoc([30], 30);
    assert [30] + [30] == [30, 30];
  }

  lemma TwoFit(avail: nat)
    requires 62 <= avail <= 66
    ensures Fitted([30, 30], avail) == [30, 30]
  {
    TwoSum();
    assert Capped([30, 30], avail / 2) == [30, 30];
  }

  lemma TwoOver(pen: Pen)
    requires pen.head == 1 && pen.depth <= 1
    ensures !ColumnsHold(pen, [30, 30], [30, 30], 0, Indent(Layout(pen, [])))
  {
    var left := Indent(Layout(pen, []));
    assert !ColumnsHold(pen, [30, 30], [30, 30], 1, left + 186);
  }

  // ---- Fills that never end -------------------------------------------

  function Spaces(n: nat): seq<bv8> {
    seq(n, _ => 0x20)
  }

  lemma {:induction false} SpacesFrom(n: nat, k: nat)
    requires k <= n
    ensures Chunked(Spaces(n), k) && SkipBlankish(Spaces(n), k) == n
    decreases n - k
  {
    if k < n {
      assert SeqLen(Spaces(n)[k]) == 1;
      SpacesFrom(n, k + 1);
    }
  }

  /** Seventy spaces leave the pen beyond the margin, and a dark field there asks for a bar whose width has
      wrapped. */
  lemma SpacesThenFieldNeverEnds(g: Page, plain: Style, dark: Style, f: Field)
    requires Seen(g.view, 0)
    requires plain.depth == 0 && plain.align == Left && !plain.heading && !plain.literal
    requires dark.depth == 0 && HasBg(dark.bg) && Luma(dark.bg) < 128
    requires f.kind == TextField && Chunked(f.caption, 0) && |f.caption| <= MAX_RUN && f.width <= 255 && g.cfg.leading <= 255
    ensures var cbs := [Text(Spaces(70), plain), FieldOf(f, dark)];
      Chunked(Spaces(70), 0) && (forall i :: 0 <= i < 2 ==> WellFormed(cbs[i])) && !AllEnd(Run(g, Fresh(), cbs).log)
  {
    hide OnText, OnField, EmitRun, AllEnd, HasBg, Luma;
    assert AllEnd(Fresh().log) by { NothingDrawn(); }
    SpacesFrom(70, 0);
    var s := OnText(g, Fresh(), Spaces(70), plain);
    SpacesMove(g, plain);
    RunTwo(g, Fresh(), Text(Spaces(70), plain), FieldOf(f, dark));
    OnFieldEnds(g, s, f, dark);
  }

  lemma NothingDrawn()
    ensures AllEnd(Fresh().log)
  {
  }

  lemma SpacesMove(g: Page, style: Style)
    requires style.depth == 0 && style.align == Left && !style.heading && !style.literal
    ensures Chunked(Spaces(70), 0)
    ensures var s := OnText(g, Fresh(), Spaces(70), style); s.pen.x == 422 && s.pen.rowOpen && s.pen.rowH == 0 && s.pen.y == 0
  {
    SpacesFrom(70, 0);
    var t := Spaces(70);
    hide HasBg, Luma, EmitRun, AllIn, Cells;
    var s1 := Styled(g, Fresh(), t, style);
    assert s1.pen.x == 2 && s1.pen.head == 0 && !s1.pen.rowOpen && s1.pen.depth == 0 && s1.pen.rowH == 0 && s1.pen.y == 0 && !s1.pen.literal;
    SpacesRun(g, s1, s1.pen.invert);
  }

  lemma SpacesRun(g: Page, s: Layout, invert: bool)
    requires s.pen.x == 2 && s.pen.head == 0 && s.pen.depth == 0 && !s.pen.literal
    ensures Chunked(Spaces(70), 0)
    ensures var b := EmitRun(g, s, Spaces(70), invert).pen; b == s.pen.(x := 422, rowOpen := true)
  {
    SpacesFrom(70, 0);
    var t := Spaces(70);
    assert WordEnd(t, 70) == 70 && ChunkCount(t, 70, 70) == 0;
    LeadWalks(g, s, 420, invert);
    hide Lead;
    assert Word(g, Lead(g, s, 420, invert), t, 70, 70, invert) == Lead(g, s, 420, invert);
    assert LeadWidth(s, 0, 70) == 420;
    assert Token(g, s, t, 0, 70, 70, invert) == Lead(g, s, 420, invert);
  }

  /** A one-letter heading that fell back to the body face, ended at a deeper indent: the rule under it would
      start right of its own text. */
  lemma DeepLineEndNeverEnds(g: Page, style: Style, end: Style)
    requires Seen(g.view, 0) && g.cfg.stepped && !g.cfg.head2x && g.cfg.leading <= 255
    requires style.heading && style.depth == 2 && style.align == Left && !HasBg(style.bg) && !style.literal && !style.underline
    requires end.depth == 4
    ensures var cbs := [Text(Letter(), style), LineEnd(end)];
      (forall i :: 0 <= i < 2 ==> WellFormed(cbs[i])) && !AllEnd(Run(g, Fresh(), cbs).log)
  {
    hide OnText, OnLineEnd, AllEnd, HasBg;
    var s := OnText(g, Fresh(), Letter(), style);
    RuledLetter(g, style);
    RunTwo(g, Fresh(), Text(Letter(), style), LineEnd(end));
    OnLineEndEnds(g, s, end);
  }

  lemma RuledLetter(g: Page, style: Style)
    requires g.cfg.stepped && !g.cfg.head2x
    requires style.heading && style.depth == 2 && style.align == Left && !HasBg(style.bg) && !style.literal && !style.underline
    ensures var s := OnText(g, Fresh(), Letter(), style);
      s.pen.x == 32 && s.pen.rowOpen && s.pen.headRule && s.pen.rowH == 0 && s.pen.y == 0
  {
    hide EmitRun, HasBg, Luma, CellOf, AllIn;
    var s1 := Styled(g, Fresh(), Letter(), style);
    OneLetter(g, s1, s1.pen.invert);
    CellStays(g, s1, [0x61], s1.pen.invert);
  }

  // ---- A link with no box ---------------------------------------------

  /** A full row of letters, then a link: it wraps, its letter is drawn on the second row, and the box
      recorded for it stands at the end of the first with no width at all. */
  lemma LinkAtMarginHasNoBox(g: Page, style: Style, target: seq<bv8>)
    requires TopView(g) && style.depth == 0 && style.align == Left && !style.heading && !style.literal
    ensures Chunked(Letters(66), 0)
    ensures var s := Step(g, Fresh(), Text(Letters(66), style));
      var a := LinkStart(s, style);
      var end := EmitRun(g, a, Letter(), a.pen.invert);
      var box := LinkBox(g, a, Letter(), target);
      && Step(g, s, LinkTo(Letter(), target, style)).log == end.log + [Draw(LineHeight(g), LineHeight(g), box)]
      && box.x == RIGHT && box.y == 0 && box.w == 0 && end.pen.y == LineHeight(g) && end.pen.x == 8
  {
    LettersFrom(66, 0, 66);
    hide OnText, EmitRun, RunWalk, Seen, ScreenY, LinkStart, LinkBox;
    FullRow(g, style);
    var s := OnText(g, Fresh(), Letters(66), style);
    OnLinkRecords(g, s, Letter(), target, style);
    MarginLink(g, s, style, target);
    TopRow(g, LineHeight(g));
  }

  lemma MarginLink(g: Page, s: Layout, style: Style, target: seq<bv8>)
    requires TopView(g) && style.depth == 0
    requires s.pen.x == RIGHT && s.pen.rowOpen && s.pen.rowH == 0 && s.pen.y == 0 && s.pen.head == 0 && s.pen.depth == 0 && !s.pen.literal
    ensures var a := LinkStart(s, style);
      var end := EmitRun(g, a, Letter(), a.pen.invert);
      var box := LinkBox(g, a, Letter(), target);
      && RowHeight(g, end) == LineHeight(g)
      && box.x == RIGHT && box.y == 0 && box.w == 0 && end.pen.y == LineHeight(g) && end.pen.x == 8
  {
    hide EmitRun, RunWalk, Seen, ScreenY;
    var a := LinkStart(s, style);
    LinkBoxIff(g, s, Letter(), target, style);
    LetterWalk(a.pen);
    RunWalks(g, a, Letter(), a.pen.invert);
    assert RowHeight(g, Layout(a.pen, [])) == LineHeight(g);
    TopRow(g, 0);
  }

  lemma LetterWalk(pen: Pen)
    requires pen.x == RIGHT && pen.rowOpen && !pen.literal && pen.head == 0 && pen.depth == 0
    ensures RunWalk(pen, Letter()) == Stop(1, 8)
  {
    var t := Letter();
    assert SkipBlankish(t, 0) == 0;
    assert SeqLen(t[0]) == 1;
    assert WordEnd(t, 1) == 1 && WordEnd(t, 0) == 1;
    assert ChunkCount(t, 1, 1) == 0 && ChunkCount(t, 0, 1) == 1;
  }

  lemma FullRow(g: Page, style: Style)
    requires style.depth == 0 && style.align == Left && !style.heading && !style.literal
    ensures Chunked(Letters(66), 0)
    ensures var s := OnText(g, Fresh(), Letters(66), style);
      s.pen.x == RIGHT && s.pen.rowOpen && s.pen.rowH == 0 && s.pen.y == 0 && s.pen.head == 0 && s.pen.depth == 0 && !s.pen.literal
  {
    LettersFrom(66, 0, 66);
    LettersFrom(66, 66, 66);
    var t := Letters(66);
    hide HasBg, Luma, EmitRun, AllIn, Cells, RunWalk;
    var s1 := Styled(g, Fresh(), t, style);
    assert s1.pen.x == 2 && s1.pen.head == 0 && !s1.pen.rowOpen && s1.pen.depth == 0 && s1.pen.rowH == 0 && s1.pen.y == 0 && !s1.pen.literal;
    RunWalks(g, s1, t, s1.pen.invert);
    FullWalk(s1.pen);
    WalkOpens(g, s1, t, s1.pen.invert);
  }

  lemma FullWalk(pen: Pen)
    requires pen.x == 2 && !pen.literal && pen.head == 0 && pen.depth == 0
    ensures Chunked(Letters(66), 0) && RunWalk(pen, Letters(66)) == Stop(0, RIGHT)
  {
    LettersFrom(66, 0, 66);
    LettersFrom(66, 66, 66);
    var s := Layout(pen, []);
    assert Pace(s) == 6 && Indent(s) == 2;
    assert TokenWalk(2, 6, 2, 0, 66) == Stop(0, RIGHT);
    hide ChunkCount, Chunked, WordEnd, SkipBlankish, TokenWalk;
    assert ProseWalk(2, 6, RIGHT, Letters(66), 66) == Stop(0, RIGHT);
  }

  // A run that ends on the row it began, further right, has opened it.
  lemma WalkOpens(g: Page, s: Layout, t: seq<bv8>, invert: bool)
    requires !s.pen.literal && s.pen.head == 0 && s.pen.depth == 0 && s.pen.x == 2 && t == Letters(66) && Chunked(t, 0)
    ensures EmitRun(g, s, t, invert).pen.rowOpen
  {
    LettersFrom(66, 0, 66);
    hide Word, Token, Tokens, ChunkCount, Chunked, WordEnd, SkipBlankish;
    WordWalks(g, s, t, 0, 66, invert);
    FullToken(g, s, t, invert);
  }

  lemma FullToken(g: Page, s: Layout, t: seq<bv8>, invert: bool)
    requires !s.pen.literal && s.pen.head == 0 && s.pen.depth == 0 && s.pen.x == 2 && t == Letters(66) && Chunked(t, 0)
    ensures Tokens(g, s, t, 0, invert) == Word(g, s, t, 0, 66, invert)
  {
    LettersFrom(66, 0, 66);
    LettersFrom(66, 66, 66);
    FullWord(g, s, t, invert);
    hide Word, ChunkCount, Chunked, WordEnd, SkipBlankish, Token;
    var b := Token(g, s, t, 0, 0, 66, invert);
    assert Tokens(g, b, t, 66, invert) == b;
  }

  lemma FullWord(g: Page, s: Layout, t: seq<bv8>, invert: bool)
    requires s.pen.head == 0 && s.pen.depth == 0 && s.pen.x == 2 && t == Letters(66)
    ensures Token(g, s, t, 0, 0, 66, invert) == Word(g, s, t, 0, 66, invert)
  {
    LettersFrom(66, 0, 66);
    assert Pace(s) == 6 && Usable(s) == 396 && Indent(s) == 2;
    hide Word, ChunkCount, LongWord, Pace, Usable, Newline, Lead, Indent, Chunked, CellsFrom;
    assert LeadWidth(s, 0, 0) == 0 && WordWidth(s, t, 0, 66) == 396;
  }

  // ---- A token that overhangs -----------------------------------------

  /** Ten spaces and a word of sixty letters: the word alone fits a row, with its spaces it does not. */
  function WideToken(): seq<bv8> {
    Spaces(10) + Letters(60)
  }

  lemma {:induction false} WideFrom(k: nat)
    requires 10 <= k <= 70
    ensures var t := WideToken(); |t| == 70 && Chunked(t, k) && ChunkCount(t, k, 70) == 70 - k && WordEnd(t, k) == 70
    decreases 70 - k
  {
    var t := WideToken();
    if k < 70 {
      assert t[k] == 0x61 && SeqLen(t[k]) == 1;
      WideFrom(k + 1);
    }
  }

  lemma {:induction false} WideSpaces(k: nat)
    requires k <= 10
    ensures var t := WideToken(); Chunked(t, k) && SkipBlankish(t, k) == 10
    decreases 10 - k
  {
    var t := WideToken();
    if k < 10 {
      assert t[k] == 0x20 && SeqLen(t[k]) == 1;
      WideSpaces(k + 1);
    } else {
      WideFrom(10);
    }
  }

  predicate GlyphAt(log: seq<Draw>, x: int) {
    exists i :: 0 <= i < |log| && log[i].shape.Glyph? && log[i].shape.x == x
  }

  lemma CellInks(g: Page, s: Layout, invert: bool)
    requires Seen(g.view, s.pen.y)
    ensures GlyphAt(CellOf(g, s, [0x61], invert).log, s.pen.x)
  {
    hide FaceOf, Seen, ScreenY;
    var a := if s.pen.hasBg then Put(g, s, Fill(s.pen.x, Pace(s), RowHeight(g, s), invert)) else PutIf(g, s, invert, Fill(s.pen.x, Pace(s), RowHeight(g, s), true));
    var b := PutGlyph(g, a, [0x61], invert);
    assert b.log[|a.log|].shape.Glyph? && b.log[|a.log|].shape.x == s.pen.x;
    assert CellOf(g, s, [0x61], invert).log[|a.log|] == b.log[|a.log|];
  }

  lemma WideLetterAt(k: nat)
    requires 10 <= k < 70
    ensures |WideToken()| == 70 && ChunkAt(WideToken(), k) == [0x61] && SeqLen(WideToken()[k]) == 1
  {
  }

  lemma {:induction false} LastLetter(g: Page, s: Layout, k: nat, invert: bool)
    requires 10 <= k < 70 && Seen(g.view, s.pen.y) && Pace(s) == 6 && s.pen.x + 6 * (70 - k) <= 1000
    ensures |WideToken()| == 70 && GlyphAt(Word(g, s, WideToken(), k, 70, invert).log, s.pen.x + 6 * (69 - k))
    decreases 70 - k
  {
    hide CellOf, Pace, Seen, GlyphAt, WideToken, ChunkAt, SeqLen;
    var t := WideToken();
    WideLetterAt(k);
    var m := CellStep(g, s, [0x61], invert);
    if k == 69 {
      CellInks(g, s, invert);
      assert Word(g, m, t, 70, 70, invert) == m;
    } else {
      LastLetter(g, m, k + 1, invert);
    }
  }

  /** A glyph is drawn past the right margin. */
  ghost predicate PastMargin(log: seq<Draw>) {
    exists x :: x > RIGHT && GlyphAt(log, x)
  }

  /** On a fresh row it starts at the edge, so it is not wrapped, and its last letters are drawn past the
      margin. */
  lemma WideTokenOverhangs(g: Page, style: Style)
    requires Seen(g.view, 0) && style.depth == 0 && style.align == Left && !style.heading && !style.literal
    ensures WellFormed(Text(WideToken(), style)) && PastMargin(Run(g, Fresh(), [Text(WideToken(), style)]).log)
  {
    hide EmitRun, Seen, Chunked, Styled, WideToken, PastMargin;
    WideSpaces(0);
    var t := WideToken();
    RunOne(g, Fresh(), Text(t, style));
    PlainStart(g, t, style);
    WideLine(g, Styled(g, Fresh(), t, style), Styled(g, Fresh(), t, style).pen.invert);
  }

  lemma WideLine(g: Page, s: Layout, invert: bool)
    requires Seen(g.view, s.pen.y) && s.pen.x == 2 && s.pen.head == 0 && s.pen.depth == 0 && !s.pen.literal
    ensures Chunked(WideToken(), 0) && PastMargin(EmitRun(g, s, WideToken(), invert).log)
  {
    hide EmitRun, Seen, Chunked, WideToken, Word, Lead, GlyphAt;
    WideRun(g, s, invert);
    var l := Lead(g, s, 60, invert);
    LeadWalks(g, s, 60, invert);
    BodyPaceAt(l);
    LastLetter(g, l, 10, invert);
  }

  lemma PlainStart(g: Page, t: seq<bv8>, style: Style)
    requires style.depth == 0 && style.align == Left && !style.heading && !style.literal
    ensures var s := Styled(g, Fresh(), t, style);
      s.pen.x == 2 && s.pen.head == 0 && !s.pen.rowOpen && s.pen.depth == 0 && s.pen.rowH == 0 && s.pen.y == 0 && !s.pen.literal
  {
    hide HasBg, Luma, AllIn, Cells;
  }

  lemma BodyPaceAt(s: Layout)
    requires s.pen.head == 0
    ensures Pace(s) == 6
  {
  }

  lemma WideRun(g: Page, s: Layout, invert: bool)
    requires s.pen.x == 2 && s.pen.head == 0 && s.pen.depth == 0 && !s.pen.literal
    ensures Chunked(WideToken(), 0) && |WideToken()| == 70
    ensures EmitRun(g, s, WideToken(), invert) == Word(g, Lead(g, s, 60, invert), WideToken(), 10, 70, invert)
  {
    WideSpaces(0);
    WideFrom(10);
    WideFrom(70);
    var t := WideToken();
    WideOne(g, s, invert);
    hide Token, WideToken, SkipBlankish, WordEnd, Chunked, Word, Lead;
    var b := Token(g, s, t, 0, 10, 70, invert);
    assert Tokens(g, b, t, 70, invert) == b;
    assert Tokens(g, s, t, 0, invert) == b;
    assert PullBack(s) == s;
  }

  lemma WideOne(g: Page, s: Layout, invert: bool)
    requires s.pen.x == 2 && s.pen.head == 0 && s.pen.depth == 0
    ensures |WideToken()| == 70
    ensures Token(g, s, WideToken(), 0, 10, 70, invert) == Word(g, Lead(g, s, 60, invert), WideToken(), 10, 70, invert)
  {
    WideFrom(10);
    assert Pace(s) == 6 && Usable(s) == 396 && Indent(s) == 2;
    hide Word, ChunkCount, LongWord, Pace, Usable, Newline, Lead, Indent, Chunked, WideToken;
    assert LeadWidth(s, 0, 10) == 60 && WordWidth(s, WideToken(), 10, 70) == 360;
  }
}
