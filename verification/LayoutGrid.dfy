// A table on the page: its columns, the lines between them and the rules under its rows.
module LayoutGrid {
  import opened Geometry
  import opened Utf8
  import opened Chunks
  import opened CellWalk
  import opened TableFit
  import opened Arith
  import opened LayoutTypes
  import opened LayoutSpec
  import opened LayoutWalk
  import opened LayoutText
  import opened LayoutTables
  import opened LayoutPlaced

  // ---- Columns --------------------------------------------------------

  /** Where column c starts: past the columns before it, six pixels a cell, and a cell between each two. */
  function ColumnStart(left: nat, fit: seq<nat>, c: nat): (x: nat)
    requires c <= |fit|
    ensures x >= left
  {
    if c == 0 then left else ColumnStart(left, fit, c - 1) + 6 * fit[c - 1] + 6
  }

  /** Every column ends at the margin or before it. */
  predicate ColumnsEnd(left: nat, fit: seq<nat>) {
    forall c :: 0 <= c < |fit| ==> ColumnStart(left, fit, c) + 6 * fit[c] <= 398
  }

  /** The line's slice of each cell, typed from the start of its column. */
  function LineTyped(row: Row, fit: seq<nat>, ln: nat, c: nat, y: nat, left: nat): seq<Mark>
    requires |row| == |fit| && RowChunked(row)
    decreases |row| - c
  {
    if c < |row| then
      var t := Slice(row[c], fit[c], ln);
      Typed(t, 0, |t|, y, ColumnStart(left, fit, c), 6, true) + LineTyped(row, fit, ln, c + 1, y, left)
    else []
  }

  lemma SliceFits(p: seq<bv8>, w: nat, ln: nat)
    requires Chunked(p, 0)
    ensures Cells(Slice(p, w, ln)) <= w
  {
    LineStartChunked(p, w, ln);
    var from := LineStart(p, w, ln);
    LineShape(p, from, w);
    CountIsCells(p, from, from, BreakAt(p, from, w));
  }

  lemma CellTyped(g: Page, s: Layout, x: U16, t: seq<bv8>)
    requires Chunked(t, 0) && Seen(g.view, s.pen.y) && !s.pen.literal && Pace(s) == 6 && Indent(s) <= x && x + 6 * Cells(t) <= 398
    ensures var b := if t == [] then s else EmitRun(g, AtColumn(s, x), t, false);
      && b.pen == s.pen.(x := b.pen.x, rowOpen := b.pen.rowOpen)
      && Glyphs(b.log) == Glyphs(s.log) + Typed(t, 0, |t|, ScreenY(g.view, s.pen.y), x, 6, true)
  {
    hide Glyphs, Typed, Tokens, Pace, Cells, Indent, Seen, ScreenY;
    var row := ScreenY(g.view, s.pen.y);
    CellsAreChunks(t);
    if t == [] {
      NothingTyped(t, 0, |t|, row, x, 6, true);
      assert Glyphs(s.log) + [] == Glyphs(s.log);
    } else {
      var a := AtColumn(s, x);
      SamePace(s, a);
      ProseTypes(g, a, t, 0, false);
    }
  }

  lemma ColumnEnds(left: nat, fit: seq<nat>, c: nat)
    requires c < |fit| && ColumnsEnd(left, fit)
    ensures ColumnStart(left, fit, c) + 6 * fit[c] <= 398
  {
    hide ColumnStart;
  }

  lemma NextStart(left: nat, fit: seq<nat>, c: nat)
    requires c < |fit|
    ensures ColumnStart(left, fit, c + 1) == ColumnStart(left, fit, c) + 6 * fit[c] + 6
  {
  }

  lemma NextColumn(left: nat, fit: seq<nat>, c: nat)
    requires c < |fit| && ColumnsEnd(left, fit)
    ensures ColumnStart(left, fit, c) + 6 * fit[c] <= 398
    ensures var x := ColumnStart(left, fit, c + 1);
      x <= 404 && Wrap16(ColumnStart(left, fit, c) + (fit[c] + GAP) * 6) == x && x - 4 >= 0 && Wrap16(x - 4) == x - 4
  {
    hide ColumnStart, ColumnsEnd;
    ColumnEnds(left, fit, c);
    NextStart(left, fit, c);
    assert (fit[c] + GAP) * 6 == 6 * fit[c] + 6;
  }

  lemma {:induction false} CellsTyped(g: Page, s: Layout, row: Row, fit: seq<nat>, ln: nat, c: nat)
    requires |row| == |fit| && RowChunked(row) && c <= |row| && ColumnsEnd(Indent(s), fit)
    requires Seen(g.view, s.pen.y) && !s.pen.literal && Pace(s) == 6 && ColumnStart(Indent(s), fit, c) <= 0xFFFF
    ensures var b := CellsOn(g, s, row, fit, ln, c, ColumnStart(Indent(s), fit, c));
      && b.pen == s.pen.(x := b.pen.x, rowOpen := b.pen.rowOpen)
      && Glyphs(b.log) == Glyphs(s.log) + LineTyped(row, fit, ln, c, ScreenY(g.view, s.pen.y), Indent(s))
    decreases |row| - c
  {
    hide Glyphs, Typed, Pace, Cells, Indent, Seen, ScreenY, Slice, EmitRun, ColumnStart, ColumnsEnd, Wrap16;
    var y, left := ScreenY(g.view, s.pen.y), Indent(s);
    if c < |row| {
      var x: U16 := ColumnStart(left, fit, c);
      var t := Slice(row[c], fit[c], ln);
      SliceFits(row[c], fit[c], ln);
      NextColumn(left, fit, c);
      CellTyped(g, s, x, t);
      var s1 := if t == [] then s else EmitRun(g, AtColumn(s, x), t, false);
      SamePace(s, s1);
      CellsTyped(g, s1, row, fit, ln, c + 1);
      Regrouped(Glyphs(s.log), Typed(t, 0, |t|, y, x, 6, true), LineTyped(row, fit, ln, c + 1, y, left));
    } else {
      assert Glyphs(s.log) + [] == Glyphs(s.log);
    }
  }

  /** The lines between columns: one pixel wide, four before the next column, as high as the table's line. */
  function Gaps(fit: seq<nat>, c: nat, y: nat, h: nat, left: nat, high: nat): seq<Draw>
    requires ColumnsEnd(left, fit)
    decreases |fit| - c
  {
    if c + 1 < |fit| then
      [Draw(y, h, Fill(ColumnStart(left, fit, c + 1) - 4, 1, high, true))] + Gaps(fit, c + 1, y, h, left, high)
    else []
  }

  lemma {:induction false} GuttersAre(g: Page, s: Layout, fit: seq<nat>, c: nat, left: nat)
    requires ColumnsEnd(left, fit) && c < |fit|
    ensures Gutters(g, s, fit, c, ColumnStart(left, fit, c)).log
         == s.log + Gaps(fit, c, ScreenY(g.view, s.pen.y), RowHeight(g, s), left, 13 + g.cfg.leading)
    decreases |fit| - c
  {
    hide ScreenY, RowHeight, ColumnStart, ColumnsEnd, Wrap16;
    NextColumn(left, fit, c);
    if c + 1 < |fit| {
      var x: U16 := ColumnStart(left, fit, c + 1);
      var a := PutAnyway(g, s, Fill(x - 4, 1, LineHeight(g), true));
      SameRow(g, s, a);
      GuttersAre(g, a, fit, c + 1, left);
    }
  }

  lemma GapsType(fit: seq<nat>, c: nat, y: nat, h: nat, left: nat, high: nat, log: seq<Draw>)
    requires ColumnsEnd(left, fit)
    ensures Glyphs(log + Gaps(fit, c, y, h, left, high)) == Glyphs(log)
    decreases |fit| - c
  {
    hide Glyphs;
    if c + 1 < |fit| {
      var d := Draw(y, h, Fill(ColumnStart(left, fit, c + 1) - 4, 1, high, true));
      GlyphsSnoc(log, d);
      assert Glyphs(log) + [] == Glyphs(log);
      GapsType(fit, c + 1, y, h, left, high, log + [d]);
      assert log + ([d] + Gaps(fit, c + 1, y, h, left, high)) == log + [d] + Gaps(fit, c + 1, y, h, left, high);
    } else {
      assert log + [] == log;
    }
  }

  lemma SameRow(g: Page, a: Layout, b: Layout)
    requires b.pen.rowH == a.pen.rowH
    ensures RowHeight(g, b) == RowHeight(g, a)
  {
  }

  /** One line of a table whose columns fit the page: every cell's slice typed from its column on, lines drawn between the
      columns, and the pen at the left edge one body row below. */
  lemma TableLineShows(g: Page, s: Layout, row: Row, fit: seq<nat>, ln: nat)
    requires 0 < |row| == |fit| && RowChunked(row) && ColumnsEnd(Indent(s), fit)
    requires Seen(g.view, s.pen.y) && LaidOut(g.view, s.pen.y) && !s.pen.literal && Pace(s) == 6
    ensures var b := TableLine(g, s, row, fit, ln); var (y, left) := (ScreenY(g.view, s.pen.y), Indent(s));
      && Glyphs(b.log) == Glyphs(s.log) + LineTyped(row, fit, ln, 0, y, left)
      && b.log == CellsOn(g, s, row, fit, ln, 0, left).log + Gaps(fit, 0, y, RowHeight(g, s), left, 13 + g.cfg.leading)
      && b.pen == s.pen.(y := s.pen.y + 13 + g.cfg.leading, x := left, rowOpen := false)
  {
    hide Glyphs, LineTyped, CellsOn, Gutters, Gaps, Seen, ScreenY, LaidOut, Pace, ColumnsEnd;
    var left := Indent(s);
    var a := CellsOn(g, s, row, fit, ln, 0, left);
    CellsTyped(g, s, row, fit, ln, 0);
    SameRow(g, s, a);
    GuttersAre(g, a, fit, 0, left);
    GapsType(fit, 0, ScreenY(g.view, s.pen.y), RowHeight(g, s), left, 13 + g.cfg.leading, a.log);
    GuttersKeepPen(g, a, fit, 0, left);
  }

  /** A row takes as many lines as its tallest cell, and one at least; empty cells and columns take none. */
  lemma {:induction false} RowLinesIsMost(row: Row, fit: seq<nat>, c: nat)
    requires c <= |row| == |fit|
    ensures var n := RowLines(row, fit, c);
      && n >= 1 && (forall k :: 0 <= k < c && row[k] != [] && fit[k] > 0 ==> CappedLines(row[k], fit[k]) <= n)
      && (n == 1 || exists k :: 0 <= k < c && row[k] != [] && fit[k] > 0 && CappedLines(row[k], fit[k]) == n)
  {
    hide CappedLines;
    if c > 0 {
      RowLinesIsMost(row, fit, c - 1);
    }
  }

  // ---- Rules ----------------------------------------------------------

  function RuleOf(d: Draw): seq<Draw> {
    if d.shape.Rule? then [d] else []
  }

  /** The rules of a log, in order. */
  function Rules(log: seq<Draw>): seq<Draw>
    decreases |log|
  {
    if log == [] then [] else Rules(log[..|log| - 1]) + RuleOf(log[|log| - 1])
  }

  lemma RulesSnoc(log: seq<Draw>, d: Draw)
    ensures Rules(log + [d]) == Rules(log) + RuleOf(d)
  {
    assert (log + [d])[..|log|] == log;
  }

  lemma PutRules(g: Page, s: Layout, when: bool, shape: Shape)
    ensures !shape.Rule? ==> Rules(Put(g, s, shape).log) == Rules(s.log) == Rules(PutIf(g, s, when, shape).log)
    ensures Rules(PutIf(g, s, false, shape).log) == Rules(s.log)
    ensures Put(g, s, shape).pen == s.pen == PutIf(g, s, when, shape).pen
  {
    hide Rules, ScreenY, Seen;
    RulesSnoc(s.log, Draw(ScreenY(g.view, s.pen.y), RowHeight(g, s), shape));
    assert Rules(s.log) + [] == Rules(s.log);
  }

  /** What leaves the rules of the log as they are, and no underline to come. */
  predicate Unruled(a: Layout, b: Layout) {
    Rules(b.log) == Rules(a.log) && !b.pen.underline
  }

  lemma PaintRules(g: Page, s: Layout, x: int, w: int, luma: nat)
    ensures Rules(PaintBg(g, s, x, w, luma).log) == Rules(s.log) && PaintBg(g, s, x, w, luma).pen == s.pen
  {
    hide Rules;
    PutRules(g, s, true, Texture(x, w, RowHeight(g, s), luma));
    PutRules(g, s, luma < 128, Fill(x, w, RowHeight(g, s), true));
  }

  lemma CellRules(g: Page, s: Layout, bytes: seq<bv8>, invert: bool)
    requires !s.pen.underline
    ensures Unruled(s, CellOf(g, s, bytes, invert)) && Unruled(s, PutGlyph(g, s, bytes, invert))
  {
    hide Rules, Put, PaintBg, Pace, RowHeight;
    var blank := |bytes| == 1 && Blankish(bytes[0]);
    var s1 := Ground(g, s, blank, invert);
    PaintRules(g, s, s.pen.x, Pace(s), s.pen.bgLuma);
    PutRules(g, s, true, Fill(s.pen.x, Pace(s), RowHeight(g, s), invert));
    PutRules(g, s, invert, Fill(s.pen.x, Pace(s), RowHeight(g, s), true));
    PutRules(g, s1, true, Glyph(FaceOf(g, s1, bytes), s1.pen.x, bytes, !invert));
    PutRules(g, s, true, Glyph(FaceOf(g, s, bytes), s.pen.x, bytes, !invert));
    var s2 := if blank then s1 else PutGlyph(g, s1, bytes, invert);
    PutRules(g, s2, false, Rule(s.pen.x, RowHeight(g, s) - 2, Pace(s), !invert));
  }

  lemma {:induction false} WordRules(g: Page, s: Layout, t: seq<bv8>, k: nat, e: nat, invert: bool)
    requires e <= |t| && !s.pen.underline
    ensures Unruled(s, Word(g, s, t, k, e, invert))
    decreases e - k
  {
    hide Rules, CellOf, Pace, ChunkAt;
    if k < e {
      CellRules(g, s, ChunkAt(t, k), invert);
      WordRules(g, Moved(CellOf(g, s, ChunkAt(t, k), invert), Pace(s)), t, k + SeqLen(t[k]), e, invert);
    }
  }

  lemma {:induction false} LongRules(g: Page, s: Layout, t: seq<bv8>, k: nat, e: nat, invert: bool)
    requires e <= |t| && !s.pen.underline
    ensures Unruled(s, LongWord(g, s, t, k, e, invert))
    decreases e - k
  {
    hide Rules, PutGlyph, Pace, ChunkAt, RowHeight;
    if k < e {
      var s1 := WrapIfNeeded(g, s, Pace(s));
      CellRules(g, s1, ChunkAt(t, k), invert);
      LongRules(g, Moved(PutGlyph(g, s1, ChunkAt(t, k), invert), Pace(s1)), t, k + SeqLen(t[k]), e, invert);
    }
  }

  lemma TokenRules(g: Page, s: Layout, t: seq<bv8>, i: nat, sp: nat, e: nat, invert: bool)
    requires i <= sp <= e <= |t| && !s.pen.underline
    ensures Unruled(s, Token(g, s, t, i, sp, e, invert))
  {
    hide Rules, Word, LongWord, PaintBg, Put, Pace, ChunkCount, RowHeight;
    var leadW := LeadWidth(s, i, sp);
    LongRules(g, s, t, i, e, invert);
    WordRules(g, Newline(g, s), t, sp, e, invert);
    WordRules(g, s, t, sp, e, invert);
    PaintRules(g, s, s.pen.x, leadW, s.pen.bgLuma);
    WordRules(g, Lead(g, s, leadW, invert), t, sp, e, invert);
  }

  lemma {:induction false} ProseRules(g: Page, s: Layout, t: seq<bv8>, i: nat, invert: bool)
    requires Chunked(t, i) && !s.pen.underline
    ensures Unruled(s, Tokens(g, s, t, i, invert))
    decreases |t| - i
  {
    hide Rules, Token;
    if i < |t| {
      TokenBounds(t, i);
      var sp := SkipBlankish(t, i);
      var e := WordEnd(t, sp);
      TokenRules(g, s, t, i, sp, e, invert);
      ProseRules(g, Token(g, s, t, i, sp, e, invert), t, e, invert);
    }
  }

  lemma {:induction false} LiteralRules(g: Page, s: Layout, t: seq<bv8>, k: nat, invert: bool)
    requires !s.pen.underline
    ensures Unruled(s, LiteralFrom(g, s, t, k, invert))
    decreases |t| - k
  {
    hide Rules, Put, ChunkAt, RowHeight;
    if k < |t| {
      if s.pen.x + FONT_ADVANCE > RIGHT {
        var fill := Fill(RIGHT - FONT_ADVANCE, FONT_ADVANCE, RowHeight(g, s), invert);
        PutRules(g, s, true, fill);
        PutRules(g, Put(g, s, fill), true, Symbol(RIGHT - FONT_ADVANCE, [0xC2, 0xBB], !invert));
      } else {
        var fill := Fill(s.pen.x, FONT_ADVANCE, RowHeight(g, s), true);
        PutRules(g, s, invert, fill);
        PutRules(g, PutIf(g, s, invert, fill), true, Glyph(Body, s.pen.x, ChunkAt(t, k), !invert));
        LiteralRules(g, LiteralCellOf(g, s, ChunkAt(t, k), invert), t, k + SeqLen(t[k]), invert);
      }
    }
  }

  lemma RunRules(g: Page, s: Layout, t: seq<bv8>, invert: bool)
    requires Chunked(t, 0) && !s.pen.underline
    ensures Unruled(s, EmitRun(g, s, t, invert))
  {
    hide Rules, Tokens, LiteralFrom;
    ProseRules(g, PullBack(s), t, 0, invert);
    LiteralRules(g, ToMargin(s), t, 0, invert);
  }

  lemma {:induction false} CellsUnruled(g: Page, s: Layout, row: Row, fit: seq<nat>, ln: nat, c: nat, x: U16)
    requires |row| == |fit| && RowChunked(row) && !s.pen.underline
    ensures Unruled(s, CellsOn(g, s, row, fit, ln, c, x))
    decreases |row| - c
  {
    hide Rules, EmitRun, Slice;
    if c < |row| {
      var t := Slice(row[c], fit[c], ln);
      RunRules(g, AtColumn(s, x), t, false);
      CellsUnruled(g, if t == [] then s else EmitRun(g, AtColumn(s, x), t, false), row, fit, ln, c + 1, Wrap16(x + (fit[c] + GAP) * 6));
    }
  }

  lemma {:induction false} GuttersUnruled(g: Page, s: Layout, fit: seq<nat>, c: nat, x: U16)
    requires !s.pen.underline
    ensures Unruled(s, Gutters(g, s, fit, c, x))
    decreases |fit| - c
  {
    hide Rules;
    if c + 1 < |fit| {
      var x': U16 := Wrap16(x + (fit[c] + GAP) * 6);
      var shape := Fill(Wrap16(x' - 4), 1, LineHeight(g), true);
      RulesSnoc(s.log, Draw(ScreenY(g.view, s.pen.y), RowHeight(g, s), shape));
      assert Rules(s.log) + [] == Rules(s.log);
      GuttersUnruled(g, PutAnyway(g, s, shape), fit, c + 1, x');
    }
  }

  lemma LineUnruled(g: Page, s: Layout, row: Row, fit: seq<nat>, ln: nat)
    requires |row| == |fit| && RowChunked(row) && !s.pen.underline
    ensures Unruled(s, TableLine(g, s, row, fit, ln))
  {
    hide Rules, CellsOn, Gutters;
    CellsUnruled(g, s, row, fit, ln, 0, Indent(s));
    GuttersUnruled(g, CellsOn(g, s, row, fit, ln, 0, Indent(s)), fit, 0, Indent(s));
  }

  lemma {:induction false} LinesUnruled(g: Page, s: Layout, row: Row, fit: seq<nat>, ln: nat, lines: nat)
    requires |row| == |fit| && RowChunked(row) && !s.pen.underline
    ensures Unruled(s, TableLines(g, s, row, fit, ln, lines))
    decreases lines - ln
  {
    hide Rules, TableLine;
    if ln < lines {
      LineUnruled(g, s, row, fit, ln);
      LinesUnruled(g, TableLine(g, s, row, fit, ln), row, fit, ln + 1, lines);
    }
  }

  // The rule a row may end with.
  lemma RowRules(g: Page, s: Layout, row: Row, fit: seq<nat>, header: bool)
    requires g.view == All && |row| == |fit| && RowChunked(row) && !s.pen.underline
    ensures var b := TableRow(g, s, row, fit, header);
      && !b.pen.underline && b.pen.depth == s.pen.depth
      && Rules(b.log) == Rules(s.log) + if header then [Draw(b.pen.y, RowHeight(g, b), Rule(Indent(s), -1, 398 - Indent(s), true))] else []
  {
    hide Rules, TableLines, RowLines, LinesY;
    LinesUnruled(g, s, row, fit, 0, RowLines(row, fit, |row|));
    LinesWalk(g, s, s.pen, row, fit, 0, RowLines(row, fit, |row|));
    var a := TableLines(g, s, row, fit, 0, RowLines(row, fit, |row|));
    RulesSnoc(a.log, Draw(a.pen.y, RowHeight(g, a), Rule(Indent(a), -1, 398 - Indent(a), true)));
    assert Rules(s.log) + [] == Rules(s.log);
  }

  lemma {:induction false} RowsRules(g: Page, s: Layout, rows: seq<Row>, fit: seq<nat>, r: nat)
    requires g.view == All && TableShape(rows, fit) && !s.pen.underline
    ensures var b := TableRows(g, s, rows, fit, r);
      && !b.pen.underline && b.pen.depth == s.pen.depth
      && (r > 0 || rows == [] ==> Rules(b.log) == Rules(s.log))
      && (r == 0 && rows != [] ==>
            var a := TableRow(g, s, rows[0], fit, true);
            Rules(b.log) == Rules(s.log) + [Draw(a.pen.y, RowHeight(g, a), Rule(Indent(s), -1, 398 - Indent(s), true))])
    decreases |rows| - r
  {
    hide Rules, TableRow, Indent, RowHeight, RowChunked;
    if r < |rows| {
      RowRules(g, s, rows[r], fit, r == 0);
      RowsRules(g, TableRow(g, s, rows[r], fit, r == 0), rows, fit, r + 1);
      assert Rules(s.log) + [] == Rules(s.log);
    }
  }

  /** A table has two rules whatever its rows, right across the page: one on the last line of its first row, one under its
      last, four pixels above what follows. */
  lemma TableRules(cfg: Config, s: Layout, rows: seq<Row>, widths: seq<nat>)
    requires TableShape(rows, widths) && rows != [] && widths != [] && !s.pen.underline
    ensures var g := Whole(cfg); var fit := Fitted(widths, TableAvail(s));
      var (a, b, left) := (TableRow(g, s, rows[0], fit, true), TableFlush(g, s, rows, widths), Indent(s));
      && b.pen.y >= 4
      && Rules(b.log) == Rules(s.log) + [Draw(a.pen.y, RowHeight(g, a), Rule(left, -1, 398 - left, true)),
                                         Draw(b.pen.y - 4, RowHeight(g, b), Rule(left, 0, 398 - left, true))]
  {
    hide Rules, TableRows, TableRow, Fitted;
    var g, fit := Whole(cfg), Fitted(widths, TableAvail(s));
    RowsRules(g, s, rows, fit, 0);
    var a := TableRows(g, s, rows, fit, 0);
    RulesSnoc(a.log, Draw(a.pen.y, RowHeight(g, a), Rule(Indent(a), 0, 398 - Indent(a), true)));
  }
  // ---- Heights --------------------------------------------------------

  lemma {:induction false} LinesHeight(g: Page, pen: Pen, row: Row, fit: seq<nat>, ln: nat, lines: nat, y: nat)
    requires |row| == |fit| && RowChunked(row) && ln <= lines && forall l :: ln <= l < lines ==> WrapsOf(pen, row, fit, l) == 0
    ensures LinesY(g, pen, row, fit, ln, lines, y) == y + (lines - ln) * LineHeight(g)
    decreases lines - ln
  {
    hide WrapsOf, LineHeight, LaidOut, RowHeight;
    if ln < lines {
      assert LineY(g, pen, row, fit, ln, y) == y + LineHeight(g) by { NoWraps(RowHeight(g, Layout(pen, []))); }
      LinesHeight(g, pen, row, fit, ln + 1, lines, y + LineHeight(g));
      Distributes(1, lines - ln - 1, LineHeight(g));
    }
  }

  lemma NoWraps(h: nat)
    ensures 0 * h == 0
  {
  }

  function TotalLines(rows: seq<Row>, fit: seq<nat>, r: nat): nat
    requires TableShape(rows, fit)
    decreases |rows| - r
  {
    if r < |rows| then RowLines(rows[r], fit, |rows[r]|) + TotalLines(rows, fit, r + 1) else 0
  }

  lemma {:induction false} RowsHeight(g: Page, pen: Pen, rows: seq<Row>, fit: seq<nat>, r: nat, y: nat)
    requires TableShape(rows, fit) && TableHolds(pen, rows, fit)
    ensures RowsY(g, pen, rows, fit, r, y) == y + TotalLines(rows, fit, r) * LineHeight(g)
    decreases |rows| - r
  {
    hide WrapsOf, LineHeight, LinesY, RowLines;
    if r < |rows| {
      var n := RowLines(rows[r], fit, |rows[r]|);
      assert RowHolds(pen, rows[r], fit);
      LinesHeight(g, pen, rows[r], fit, 0, n, y);
      RowsHeight(g, pen, rows, fit, r + 1, y + n * LineHeight(g));
      Distributes(n, TotalLines(rows, fit, r + 1), LineHeight(g));
    }
  }

  /** Where no cell wraps inside its column, a table is as many body rows high as its rows' tallest cells have lines, and
      four pixels. */
  lemma TableHeight(g: Page, s: Layout, rows: seq<Row>, widths: seq<nat>)
    requires TableShape(rows, widths) && rows != [] && widths != [] && TableSafe(s.pen, rows, widths)
    ensures TableFlush(g, s, rows, widths).pen.y
         == s.pen.y + TotalLines(rows, Fitted(widths, TableAvail(Layout(s.pen, []))), 0) * (13 + g.cfg.leading) + 4
  {
    hide TableFlush, Fitted, RowsY, TableHolds, TotalLines;
    FlushWalks(g, s, rows, widths);
    RowsHeight(g, s.pen, rows, Fitted(widths, TableAvail(Layout(s.pen, []))), 0, s.pen.y);
  }
}
