// How far a table moves the pen, and exactly when that depends on the scroll offset.
module LayoutTables {
  import opened Geometry
  import opened Utf8
  import opened Chunks
  import opened CellWalk
  import opened TableFit
  import opened Arith
  import opened LayoutTypes
  import opened LayoutSpec
  import opened LayoutWalk

  /** The pen as a table cell finds it. */
  function AtCell(pen: Pen, x: U16): Pen {
    pen.(y := 0, x := x, rowOpen := true)
  }

  /** How many times the cells of one table line wrap. */
  function LineWraps(pen: Pen, row: Row, fit: seq<nat>, ln: nat, c: nat, x: U16): nat
    requires |row| == |fit| && RowChunked(row)
    decreases row, |row| - c
  {
    if c < |row| then
      RunWalk(AtCell(pen, x), Slice(row[c], fit[c], ln)).rows
      + LineWraps(pen, row, fit, ln, c + 1, Wrap16(x + (fit[c] + GAP) * 6))
    else 0
  }

  function WrapsOf(pen: Pen, row: Row, fit: seq<nat>, ln: nat): nat
    requires |row| == |fit| && RowChunked(row)
  {
    LineWraps(pen, row, fit, ln, 0, Indent(Layout(pen, [])))
  }

  /** No cell of the table wraps inside its column. */
  ghost predicate RowHolds(pen: Pen, row: Row, fit: seq<nat>)
    requires |row| == |fit| && RowChunked(row)
  {
    forall ln :: 0 <= ln < RowLines(row, fit, |row|) ==> WrapsOf(pen, row, fit, ln) == 0
  }

  ghost predicate TableHolds(pen: Pen, rows: seq<Row>, fit: seq<nat>)
    requires TableShape(rows, fit)
  {
    forall r :: 0 <= r < |rows| ==> RowHolds(pen, rows[r], fit)
  }

  ghost predicate TableSafe(pen: Pen, rows: seq<Row>, widths: seq<nat>)
    requires TableShape(rows, widths)
  {
    rows != [] && widths != [] ==> TableHolds(pen, rows, Fitted(widths, TableAvail(Layout(pen, []))))
  }

  // ---- The pen --------------------------------------------------------

  // The row each line of a table row leaves the pen at, when the first of them starts at y.
  function LinesY(g: Page, pen: Pen, row: Row, fit: seq<nat>, ln: nat, lines: nat, y: nat): nat
    requires |row| == |fit| && RowChunked(row)
    decreases lines - ln
  {
    if ln < lines then LinesY(g, pen, row, fit, ln + 1, lines, LineY(g, pen, row, fit, ln, y)) else y
  }

  function LineY(g: Page, pen: Pen, row: Row, fit: seq<nat>, ln: nat, y: nat): nat
    requires |row| == |fit| && RowChunked(row)
  {
    y + LineHeight(g)
    + if LaidOut(g.view, y) then WrapsOf(pen, row, fit, ln) * RowHeight(g, Layout(pen, [])) else 0
  }

  function RowsY(g: Page, pen: Pen, rows: seq<Row>, fit: seq<nat>, r: nat, y: nat): nat
    requires TableShape(rows, fit)
    decreases |rows| - r
  {
    if r < |rows| then
      RowsY(g, pen, rows, fit, r + 1, LinesY(g, pen, rows[r], fit, 0, RowLines(rows[r], fit, |rows[r]|), y))
    else y
  }

  predicate Alike(a: Pen, b: Pen) {
    b == a.(y := b.y, x := b.x, rowOpen := b.rowOpen)
  }

  lemma AlikeWalks(a: Pen, b: Pen, x: U16, t: seq<bv8>)
    requires Alike(a, b) && Chunked(t, 0)
    ensures RunWalk(b.(x := x, rowOpen := true), t) == RunWalk(AtCell(a, x), t)
  {
    var s, z := Layout(b.(x := x, rowOpen := true), []), Layout(AtCell(a, x), []);
    SamePace(s, z);
    hide Pace, Indent, ProseWalk, LiteralWalk;
  }

  lemma {:induction false} CellsWalk(g: Page, s: Layout, pen: Pen, row: Row, fit: seq<nat>, ln: nat, c: nat, x: U16)
    requires |row| == |fit| && RowChunked(row) && Alike(pen, s.pen)
    ensures var b := CellsOn(g, s, row, fit, ln, c, x).pen;
      Alike(pen, b) && b.y == s.pen.y + LineWraps(pen, row, fit, ln, c, x) * RowHeight(g, Layout(pen, []))
    decreases |row| - c
  {
    hide EmitRun, Slice, RunWalk, Wrap16, RowHeight;
    if c < |row| {
      var t := Slice(row[c], fit[c], ln);
      var s1 := if t == [] then s else EmitRun(g, AtColumn(s, x), t, false);
      CellWalks(g, s, pen, t, x);
      var next := Wrap16(x + (fit[c] + GAP) * 6);
      CellsWalk(g, s1, pen, row, fit, ln, c + 1, next);
      Distributes(RunWalk(AtCell(pen, x), t).rows, LineWraps(pen, row, fit, ln, c + 1, next), RowHeight(g, Layout(pen, [])));
    }
  }

  lemma CellWalks(g: Page, s: Layout, pen: Pen, t: seq<bv8>, x: U16)
    requires Chunked(t, 0) && Alike(pen, s.pen)
    ensures var b := (if t == [] then s else EmitRun(g, AtColumn(s, x), t, false)).pen;
      Alike(pen, b) && b.y == s.pen.y + RunWalk(AtCell(pen, x), t).rows * RowHeight(g, Layout(pen, []))
  {
    hide EmitRun;
    if t == [] {
      EmptyWalk(AtCell(pen, x));
    } else {
      hide RunWalk;
      RunWalks(g, AtColumn(s, x), t, false);
      AlikeWalks(pen, s.pen, x, t);
    }
  }

  lemma EmptyWalk(pen: Pen)
    ensures RunWalk(pen, []).rows == 0
  {
  }

  lemma {:induction false} GuttersKeepPen(g: Page, s: Layout, fit: seq<nat>, c: nat, x: U16)
    ensures Gutters(g, s, fit, c, x).pen == s.pen
    decreases |fit| - c
  {
    if c + 1 < |fit| {
      var x': int := Wrap16(x + (fit[c] + GAP) * 6);
      GuttersKeepPen(g, PutAnyway(g, s, Fill(Wrap16(x' - 4), 1, LineHeight(g), true)), fit, c + 1, x');
    }
  }

  lemma LineWalks(g: Page, s: Layout, pen: Pen, row: Row, fit: seq<nat>, ln: nat)
    requires |row| == |fit| && RowChunked(row) && Alike(pen, s.pen)
    ensures var b := TableLine(g, s, row, fit, ln).pen;
      b == pen.(y := LineY(g, pen, row, fit, ln, s.pen.y), x := Indent(Layout(pen, [])), rowOpen := false)
  {
    hide CellsOn, Gutters, LineWraps, RowHeight, LineHeight;
    var left := Indent(s);
    CellsWalk(g, s, pen, row, fit, ln, 0, left);
    var s1 := CellsOn(g, s, row, fit, ln, 0, left);
    GuttersKeepPen(g, s1, fit, 0, left);
  }

  /** A pen at the left edge of a row not yet opened. */
  predicate Home(pen: Pen, b: Pen) {
    b == pen.(y := b.y, x := Indent(Layout(pen, [])), rowOpen := false)
  }

  lemma {:induction false} LinesWalk(g: Page, s: Layout, pen: Pen, row: Row, fit: seq<nat>, ln: nat, lines: nat)
    requires |row| == |fit| && RowChunked(row) && Alike(pen, s.pen)
    ensures var b := TableLines(g, s, row, fit, ln, lines).pen;
      Alike(pen, b) && b.y == LinesY(g, pen, row, fit, ln, lines, s.pen.y) && (ln < lines || Home(pen, s.pen) ==> Home(pen, b))
    decreases lines - ln
  {
    hide TableLine, LineY;
    if ln < lines {
      LineWalks(g, s, pen, row, fit, ln);
      LinesWalk(g, TableLine(g, s, row, fit, ln), pen, row, fit, ln + 1, lines);
    }
  }

  lemma {:induction false} RowsWalk(g: Page, s: Layout, pen: Pen, rows: seq<Row>, fit: seq<nat>, r: nat)
    requires TableShape(rows, fit) && Alike(pen, s.pen)
    ensures var b := TableRows(g, s, rows, fit, r).pen;
      Alike(pen, b) && b.y == RowsY(g, pen, rows, fit, r, s.pen.y) && (r < |rows| || Home(pen, s.pen) ==> Home(pen, b))
    decreases |rows| - r
  {
    hide TableLines, LinesY, RowLines, RowChunked, Put;
    if r < |rows| {
      var row := rows[r];
      LinesInRange(row, fit, |row|);
      LinesWalk(g, s, pen, row, fit, 0, RowLines(row, fit, |row|));
      var s1 := TableLines(g, s, row, fit, 0, RowLines(row, fit, |row|));
      PutPen(g, s1, Rule(Indent(s1), -1, RIGHT - Indent(s1), true));
      RowsWalk(g, TableRow(g, s, row, fit, r == 0), pen, rows, fit, r + 1);
    }
  }

  lemma {:induction false} LinesInRange(row: Row, fit: seq<nat>, c: nat)
    requires c <= |row| == |fit|
    ensures 1 <= RowLines(row, fit, c) <= 32
  {
    if c > 0 {
      LinesInRange(row, fit, c - 1);
    }
  }

  /** Where a table leaves the pen: at the left edge of the row its lines add up to. */
  lemma FlushWalks(g: Page, s: Layout, rows: seq<Row>, widths: seq<nat>)
    requires TableShape(rows, widths) && rows != [] && widths != []
    ensures var fit := Fitted(widths, TableAvail(Layout(s.pen, [])));
      var b := TableFlush(g, s, rows, widths).pen;
      Home(s.pen, b) && b.y == RowsY(g, s.pen, rows, fit, 0, s.pen.y) + 4
  {
    hide TableFlush, Fitted, RowsY;
    FlushWalksFrom(g, s, s.pen, rows, widths);
  }

  // The lines are those of any pen that differs only in where it stands.
  lemma FlushWalksFrom(g: Page, s: Layout, pen: Pen, rows: seq<Row>, widths: seq<nat>)
    requires TableShape(rows, widths) && rows != [] && widths != [] && Alike(pen, s.pen)
    ensures var fit := Fitted(widths, TableAvail(Layout(pen, [])));
      var b := TableFlush(g, s, rows, widths).pen;
      Home(pen, b) && b.y == RowsY(g, pen, rows, fit, 0, s.pen.y) + PARA_GAP
  {
    hide TableRows, Fitted, RowsY, RowChunked, Put;
    var fit := Fitted(widths, TableAvail(s));
    RowsWalk(g, s, pen, rows, fit, 0);
    var s1 := TableRows(g, s, rows, fit, 0);
    PutPen(g, s1, Rule(Indent(s1), 0, RIGHT - Indent(s1), true));
  }

  // ---- Exactly when it depends on the window --------------------------

  function In(cfg: Config, scroll: U16): Page {
    Page(cfg, Window(scroll))
  }

  /** The last offset of all: a page that fits sixteen bits is out of sight there, and none of its tables'
      lines is laid out. */
  const PAST: U16 := 0xFFFF

  lemma NothingThere(cfg: Config, y: nat)
    requires y < PAST
    ensures !LaidOut(In(cfg, PAST).view, y)
  {
  }

  lemma SameHeights(g: Page, pen: Pen)
    ensures RowHeight(g, Layout(pen, [])) == RowHeight(Whole(g.cfg), Layout(pen, [])) >= 1
    ensures LineHeight(g) == LineHeight(Whole(g.cfg)) >= 1
  {
  }

  lemma {:induction false} LinesGrow(g: Page, pen: Pen, row: Row, fit: seq<nat>, ln: nat, lines: nat, y: nat)
    requires |row| == |fit| && RowChunked(row)
    ensures LinesY(g, pen, row, fit, ln, lines, y) >= y + if ln < lines then 1 else 0
    decreases lines - ln
  {
    hide WrapsOf, RowHeight, LineHeight;
    SameHeights(g, pen);
    if ln < lines {
      Grows(0, WrapsOf(pen, row, fit, ln), RowHeight(g, Layout(pen, [])));
      LinesGrow(g, pen, row, fit, ln + 1, lines, LineY(g, pen, row, fit, ln, y));
    }
  }

  // A frame beyond the page is never ahead of another view of it.
  lemma {:induction false} LinesLag(g: Page, pen: Pen, row: Row, fit: seq<nat>, ln: nat, lines: nat, y: nat, z: nat, k: nat)
    requires |row| == |fit| && RowChunked(row) && y + k <= z && LinesY(In(g.cfg, PAST), pen, row, fit, ln, lines, y) <= PAST
    ensures LinesY(In(g.cfg, PAST), pen, row, fit, ln, lines, y) + k <= LinesY(g, pen, row, fit, ln, lines, z)
    decreases lines - ln
  {
    hide WrapsOf, RowHeight, LineHeight;
    var past := In(g.cfg, PAST);
    SameHeights(g, pen);
    SameHeights(past, pen);
    if ln < lines {
      LinesGrow(past, pen, row, fit, ln, lines, y);
      NothingThere(g.cfg, y);
      Grows(0, WrapsOf(pen, row, fit, ln), RowHeight(g, Layout(pen, [])));
      LinesLag(g, pen, row, fit, ln + 1, lines, LineY(past, pen, row, fit, ln, y), LineY(g, pen, row, fit, ln, z), k);
    }
  }

  lemma {:induction false} RowsGrow(g: Page, pen: Pen, rows: seq<Row>, fit: seq<nat>, r: nat, y: nat)
    requires TableShape(rows, fit)
    ensures RowsY(g, pen, rows, fit, r, y) >= y
    decreases |rows| - r
  {
    hide LinesY, RowLines, RowChunked;
    if r < |rows| {
      var lines := RowLines(rows[r], fit, |rows[r]|);
      LinesGrow(g, pen, rows[r], fit, 0, lines, y);
      RowsGrow(g, pen, rows, fit, r + 1, LinesY(g, pen, rows[r], fit, 0, lines, y));
    }
  }

  lemma {:induction false} RowsLag(g: Page, pen: Pen, rows: seq<Row>, fit: seq<nat>, r: nat, y: nat, z: nat, k: nat)
    requires TableShape(rows, fit) && y + k <= z && RowsY(In(g.cfg, PAST), pen, rows, fit, r, y) <= PAST
    ensures RowsY(In(g.cfg, PAST), pen, rows, fit, r, y) + k <= RowsY(g, pen, rows, fit, r, z)
    decreases |rows| - r
  {
    hide LinesY, RowLines, RowChunked;
    if r < |rows| {
      var past := In(g.cfg, PAST);
      var lines := RowLines(rows[r], fit, |rows[r]|);
      RowsGrow(past, pen, rows, fit, r + 1, LinesY(past, pen, rows[r], fit, 0, lines, y));
      LinesLag(g, pen, rows[r], fit, 0, lines, y, z, k);
      RowsLag(g, pen, rows, fit, r + 1, LinesY(past, pen, rows[r], fit, 0, lines, y), LinesY(g, pen, rows[r], fit, 0, lines, z), k);
    }
  }

  lemma {:induction false} LinesSame(g: Page, pen: Pen, row: Row, fit: seq<nat>, ln: nat, lines: nat, y: nat)
    requires |row| == |fit| && RowChunked(row) && forall k :: ln <= k < lines ==> WrapsOf(pen, row, fit, k) == 0
    ensures LinesY(g, pen, row, fit, ln, lines, y) == LinesY(Whole(g.cfg), pen, row, fit, ln, lines, y)
    decreases lines - ln
  {
    hide WrapsOf;
    if ln < lines {
      LinesSame(g, pen, row, fit, ln + 1, lines, y + LineHeight(g));
    }
  }

  // The frame that begins with the first line that wraps is ahead of the one beyond the page.
  lemma {:induction false} LinesDiffer(cfg: Config, pen: Pen, row: Row, fit: seq<nat>, ln: nat, lines: nat, y: nat) returns (scroll: U16)
    requires |row| == |fit| && RowChunked(row) && exists k :: ln <= k < lines && WrapsOf(pen, row, fit, k) > 0
    requires LinesY(In(cfg, PAST), pen, row, fit, ln, lines, y) <= PAST
    ensures LinesY(In(cfg, PAST), pen, row, fit, ln, lines, y) < LinesY(In(cfg, scroll), pen, row, fit, ln, lines, y)
    ensures WrapsOf(pen, row, fit, ln) > 0 ==> scroll == y
    decreases lines - ln
  {
    hide WrapsOf, RowHeight, LineHeight;
    var past := In(cfg, PAST);
    LinesGrow(past, pen, row, fit, ln, lines, y);
    NothingThere(cfg, y);
    SameHeights(past, pen);
    if WrapsOf(pen, row, fit, ln) > 0 {
      scroll := y;
      SameHeights(In(cfg, scroll), pen);
      Grows(1, WrapsOf(pen, row, fit, ln), RowHeight(In(cfg, scroll), Layout(pen, [])));
      LinesLag(In(cfg, scroll), pen, row, fit, ln + 1, lines, LineY(past, pen, row, fit, ln, y), LineY(In(cfg, scroll), pen, row, fit, ln, y), 1);
    } else {
      scroll := LinesDiffer(cfg, pen, row, fit, ln + 1, lines, y + LineHeight(past));
      SameHeights(In(cfg, scroll), pen);
    }
  }

  lemma {:induction false} RowsDiffer(cfg: Config, pen: Pen, rows: seq<Row>, fit: seq<nat>, r: nat, y: nat) returns (scroll: U16)
    requires TableShape(rows, fit) && exists k :: r <= k < |rows| && !RowHolds(pen, rows[k], fit)
    requires RowsY(In(cfg, PAST), pen, rows, fit, r, y) <= PAST
    ensures RowsY(In(cfg, PAST), pen, rows, fit, r, y) < RowsY(In(cfg, scroll), pen, rows, fit, r, y)
    ensures WrapsOf(pen, rows[r], fit, 0) > 0 ==> scroll == y
    decreases |rows| - r
  {
    hide LinesY, RowLines, RowChunked, WrapsOf;
    var lines := RowLines(rows[r], fit, |rows[r]|);
    var past := In(cfg, PAST);
    var next := LinesY(past, pen, rows[r], fit, 0, lines, y);
    LinesInRange(rows[r], fit, |rows[r]|);
    if RowHolds(pen, rows[r], fit) {
      scroll := RowsDiffer(cfg, pen, rows, fit, r + 1, next);
      LinesSame(In(cfg, scroll), pen, rows[r], fit, 0, lines, y);
      LinesSame(past, pen, rows[r], fit, 0, lines, y);
    } else {
      RowsGrow(past, pen, rows, fit, r + 1, next);
      scroll := LinesDiffer(cfg, pen, rows[r], fit, 0, lines, y);
      RowsLag(In(cfg, scroll), pen, rows, fit, r + 1, next, LinesY(In(cfg, scroll), pen, rows[r], fit, 0, lines, y), 1);
    }
  }

  lemma {:induction false} RowsSame(g: Page, pen: Pen, rows: seq<Row>, fit: seq<nat>, r: nat, y: nat)
    requires TableShape(rows, fit) && TableHolds(pen, rows, fit)
    ensures RowsY(g, pen, rows, fit, r, y) == RowsY(Whole(g.cfg), pen, rows, fit, r, y)
    decreases |rows| - r
  {
    hide LinesY, RowLines, RowChunked, WrapsOf;
    if r < |rows| {
      assert RowHolds(pen, rows[r], fit);
      var lines := RowLines(rows[r], fit, |rows[r]|);
      LinesSame(g, pen, rows[r], fit, 0, lines, y);
      RowsSame(g, pen, rows, fit, r + 1, LinesY(Whole(g.cfg), pen, rows[r], fit, 0, lines, y));
    }
  }

  lemma SafeAlike(g: Page, s: Layout, rows: seq<Row>, widths: seq<nat>)
    requires TableShape(rows, widths) && TableSafe(s.pen, rows, widths)
    ensures TableFlush(g, s, rows, widths).pen == TableFlush(Whole(g.cfg), s, rows, widths).pen
  {
    hide TableFlush, Fitted, RowsY, TableHolds;
    if rows == [] || widths == [] {
      FlushOfNothing(s, rows, widths);
    } else {
      FlushWalks(g, s, rows, widths);
      FlushWalks(Whole(g.cfg), s, rows, widths);
      RowsSame(g, s.pen, rows, Fitted(widths, TableAvail(Layout(s.pen, []))), 0, s.pen.y);
    }
  }

  /** Any two frames leave the pen alike after a table exactly when none of its cells wraps inside its column,
      whatever face is open and whether the text is literal. */
  lemma TableHeightIff(cfg: Config, s: Layout, rows: seq<Row>, widths: seq<nat>)
    requires TableShape(rows, widths) && TableFlush(In(cfg, PAST), s, rows, widths).pen.y <= PAST
    ensures (forall a: U16, b: U16 :: TableFlush(In(cfg, a), s, rows, widths).pen == TableFlush(In(cfg, b), s, rows, widths).pen)
        <==> TableSafe(s.pen, rows, widths)
  {
    hide TableFlush, Fitted, RowsY, TableHolds, RowHolds, TableSafe;
    if TableSafe(s.pen, rows, widths) {
      forall a: U16, b: U16
        ensures TableFlush(In(cfg, a), s, rows, widths).pen == TableFlush(In(cfg, b), s, rows, widths).pen
      {
        SafeAlike(In(cfg, a), s, rows, widths);
        SafeAlike(In(cfg, b), s, rows, widths);
      }
    } else {
      var scroll := UnsafeShows(cfg, s, rows, widths);
    }
  }

  lemma FlushOfNothing(s: Layout, rows: seq<Row>, widths: seq<nat>)
    requires TableShape(rows, widths) && (rows == [] || widths == [])
    ensures forall g :: TableFlush(g, s, rows, widths) == s
  {
  }

  /** When one does, the frame that begins with its line is taller than the one beyond the page. */
  lemma UnsafeShows(cfg: Config, s: Layout, rows: seq<Row>, widths: seq<nat>) returns (scroll: U16)
    requires TableShape(rows, widths) && !TableSafe(s.pen, rows, widths) && TableFlush(In(cfg, PAST), s, rows, widths).pen.y <= PAST
    ensures TableFlush(In(cfg, PAST), s, rows, widths).pen.y < TableFlush(In(cfg, scroll), s, rows, widths).pen.y
    ensures WrapsOf(s.pen, rows[0], Fitted(widths, TableAvail(Layout(s.pen, []))), 0) > 0 ==> scroll == s.pen.y
  {
    hide TableFlush, Fitted, RowsY, RowHolds;
    var fit := Fitted(widths, TableAvail(Layout(s.pen, [])));
    FlushWalks(In(cfg, PAST), s, rows, widths);
    scroll := RowsDiffer(cfg, s.pen, rows, fit, 0, s.pen.y);
    FlushWalks(In(cfg, scroll), s, rows, widths);
  }

  // ---- How tall it is beyond the page ---------------------------------

  lemma {:induction false} LinesBeyond(cfg: Config, pen: Pen, row: Row, fit: seq<nat>, ln: nat, lines: nat, y: nat)
    requires |row| == |fit| && RowChunked(row) && ln <= lines && y + (lines - ln) * LineHeight(Whole(cfg)) <= PAST
    ensures LinesY(In(cfg, PAST), pen, row, fit, ln, lines, y) == y + (lines - ln) * LineHeight(Whole(cfg))
    decreases lines - ln
  {
    hide WrapsOf, RowHeight, LineHeight;
    SameHeights(In(cfg, PAST), pen);
    if ln < lines {
      var h := LineHeight(Whole(cfg));
      Distributes(1, lines - ln - 1, h);
      Grows(0, lines - ln - 1, h);
      NothingThere(cfg, y);
      LinesBeyond(cfg, pen, row, fit, ln + 1, lines, y + h);
    }
  }

  lemma OneRowY(g: Page, pen: Pen, row: Row, fit: seq<nat>, y: nat)
    requires TableShape([row], fit)
    ensures |row| == |fit| && RowChunked(row)
    ensures RowsY(g, pen, [row], fit, 0, y) == LinesY(g, pen, row, fit, 0, RowLines(row, fit, |row|), y)
  {
    hide LinesY, RowLines, RowChunked;
    assert [row][0] == row;
    var z := LinesY(g, pen, row, fit, 0, RowLines(row, fit, |row|), y);
    assert RowsY(g, pen, [row], fit, 1, z) == z;
  }

  /** A table of one row is at most thirty-two lines tall there. */
  lemma OneRowBeyond(cfg: Config, s: Layout, row: Row, widths: seq<nat>)
    requires TableShape([row], widths) && s.pen.y + MAX_LINES * LineHeight(Whole(cfg)) + PARA_GAP <= PAST
    ensures TableFlush(In(cfg, PAST), s, [row], widths).pen.y <= PAST
  {
    if widths == [] {
      FlushOfNothing(s, [row], widths);
    } else {
      var fit := Fitted(widths, TableAvail(Layout(s.pen, [])));
      assert TableShape([row], fit);
      hide TableFlush, Fitted, LinesY, RowsY, RowLines, LineHeight, RowChunked, TableShape, TableAvail;
      FlushWalks(In(cfg, PAST), s, [row], widths);
      OneRowY(In(cfg, PAST), s.pen, row, fit, s.pen.y);
      LinesInRange(row, fit, |row|);
      Grows(RowLines(row, fit, |row|), MAX_LINES, LineHeight(Whole(cfg)));
      LinesBeyond(cfg, s.pen, row, fit, 0, RowLines(row, fit, |row|), s.pen.y);
    }
  }
}
