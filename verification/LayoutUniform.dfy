// Exactly which callback sequences keep every text row uniform and apart from the others.
module LayoutUniform {
  import opened Wrappers
  import opened Geometry
  import opened Utf8
  import opened Chunks
  import opened CellWalk
  import opened TableFit
  import opened LayoutTypes
  import opened LayoutSpec
  import opened LayoutWalk
  import opened LayoutTables
  import opened LayoutColumns
  import opened LayoutScroll
  import opened LayoutRows

  // ---- Tables ---------------------------------------------------------

  // Each cell drawn goes with what was drawn before it.
  predicate CellsFollow(g: Page, s: Layout, row: Row, fit: seq<nat>, ln: nat, c: nat, x: U16)
    requires |row| == |fit| && RowChunked(row)
    decreases row, |row| - c
  {
    c < |row| ==>
      var t := Slice(row[c], fit[c], ln);
      (t != [] ==> RunFollows(g, AtColumn(s, x), t))
      && CellsFollow(g, if t == [] then s else EmitRun(g, AtColumn(s, x), t, false), row, fit, ln, c + 1, Wrap16(x + (fit[c] + GAP) * 6))
  }

  predicate LineFollows(g: Page, s: Layout, row: Row, fit: seq<nat>, ln: nat)
    requires |row| == |fit| && RowChunked(row)
  {
    LaidOut(g.view, s.pen.y) ==> CellsFollow(g, s, row, fit, ln, 0, Indent(s))
  }

  predicate LinesFollow(g: Page, s: Layout, row: Row, fit: seq<nat>, ln: nat, lines: nat)
    requires |row| == |fit| && RowChunked(row)
    decreases lines - ln
  {
    ln < lines ==> LineFollows(g, s, row, fit, ln) && LinesFollow(g, TableLine(g, s, row, fit, ln), row, fit, ln + 1, lines)
  }

  predicate TableFollows(g: Page, s: Layout, rows: seq<Row>, fit: seq<nat>, r: nat)
    requires TableShape(rows, fit)
    decreases rows, |rows| - r
  {
    r < |rows| ==>
      LinesFollow(g, s, rows[r], fit, 0, RowLines(rows[r], fit, |rows[r]|))
      && TableFollows(g, TableRow(g, s, rows[r], fit, r == 0), rows, fit, r + 1)
  }

  lemma {:induction false} CellsRows(g: Page, s: Layout, row: Row, fit: seq<nat>, ln: nat, c: nat, x: U16)
    requires !g.view.Window? && |row| == |fit| && RowChunked(row)
    ensures RowsOk(CellsOn(g, s, row, fit, ln, c, x).log) <==> RowsOk(s.log) && CellsFollow(g, s, row, fit, ln, c, x)
    decreases |row| - c
  {
    hide RowsOk, EmitRun, Slice, RunFollows, RunFirst, Wrap16, Settled, Idle;
    if c < |row| {
      var t := Slice(row[c], fit[c], ln);
      RunRowsIff(g, AtColumn(s, x), t, false);
      var s1 := if t == [] then s else EmitRun(g, AtColumn(s, x), t, false);
      CellsRows(g, s1, row, fit, ln, c + 1, Wrap16(x + (fit[c] + GAP) * 6));
    }
  }

  lemma {:induction false} GuttersRows(g: Page, s: Layout, fit: seq<nat>, c: nat, x: U16)
    requires !g.view.Window?
    ensures SameRows(s, Gutters(g, s, fit, c, x)) && Gutters(g, s, fit, c, x).pen == s.pen
    decreases |fit| - c
  {
    hide SameRows, Put, PutAnyway;
    SelfRows(s);
    if c + 1 < |fit| {
      var x': int := Wrap16(x + (fit[c] + GAP) * 6);
      var bar := Fill(Wrap16(x' - 4), 1, LineHeight(g), true);
      assert PutAnyway(g, s, bar) == Put(g, s, bar) by { SeesAll(g, s, bar); }
      PutRows(g, s, true, bar);
      GuttersRows(g, Put(g, s, bar), fit, c + 1, x');
      SameRowsTrans(s, Put(g, s, bar), Gutters(g, Put(g, s, bar), fit, c + 1, x'));
    }
  }

  lemma LineRows(g: Page, s: Layout, row: Row, fit: seq<nat>, ln: nat)
    requires !g.view.Window? && |row| == |fit| && RowChunked(row)
    ensures RowsOk(TableLine(g, s, row, fit, ln).log) <==> RowsOk(s.log) && LineFollows(g, s, row, fit, ln)
  {
    hide RowsOk, CellsOn, Gutters, CellsFollow, LastChar;
    if LaidOut(g.view, s.pen.y) {
      CellsRows(g, s, row, fit, ln, 0, Indent(s));
      GuttersRows(g, CellsOn(g, s, row, fit, ln, 0, Indent(s)), fit, 0, Indent(s));
    }
  }

  lemma {:induction false} LinesRows(g: Page, s: Layout, row: Row, fit: seq<nat>, ln: nat, lines: nat)
    requires !g.view.Window? && |row| == |fit| && RowChunked(row)
    ensures RowsOk(TableLines(g, s, row, fit, ln, lines).log) <==> RowsOk(s.log) && LinesFollow(g, s, row, fit, ln, lines)
    decreases lines - ln
  {
    hide RowsOk, TableLine, LineFollows;
    if ln < lines {
      LineRows(g, s, row, fit, ln);
      LinesRows(g, TableLine(g, s, row, fit, ln), row, fit, ln + 1, lines);
    }
  }

  lemma {:induction false} TableRowsRows(g: Page, s: Layout, rows: seq<Row>, fit: seq<nat>, r: nat)
    requires !g.view.Window? && TableShape(rows, fit)
    ensures RowsOk(TableRows(g, s, rows, fit, r).log) <==> RowsOk(s.log) && TableFollows(g, s, rows, fit, r)
    decreases |rows| - r
  {
    hide RowsOk, TableLines, LinesFollow, RowLines, RowChunked, LastChar, PutIf;
    if r < |rows| {
      var n := RowLines(rows[r], fit, |rows[r]|);
      LinesRows(g, s, rows[r], fit, 0, n);
      var s1 := TableLines(g, s, rows[r], fit, 0, n);
      PutRows(g, s1, r == 0, Rule(Indent(s1), -1, RIGHT - Indent(s1), true));
      TableRowsRows(g, TableRow(g, s, rows[r], fit, r == 0), rows, fit, r + 1);
    }
  }

  predicate FlushFollows(g: Page, s: Layout, rows: seq<Row>, widths: seq<nat>)
    requires TableShape(rows, widths)
  {
    rows != [] && widths != [] ==> TableFollows(g, s, rows, Fitted(widths, TableAvail(s)), 0)
  }

  lemma FlushRows(g: Page, s: Layout, rows: seq<Row>, widths: seq<nat>)
    requires !g.view.Window? && TableShape(rows, widths)
    ensures RowsOk(TableFlush(g, s, rows, widths).log) <==> RowsOk(s.log) && FlushFollows(g, s, rows, widths)
  {
    hide RowsOk, TableRows, TableFollows, Fitted, RowChunked, LastChar, Put;
    if rows != [] && widths != [] {
      var fit := Fitted(widths, TableAvail(s));
      TableRowsRows(g, s, rows, fit, 0);
      var s1 := TableRows(g, s, rows, fit, 0);
      PutRows(g, s1, true, Rule(Indent(s1), 0, RIGHT - Indent(s1), true));
    }
  }

  // ---- Callbacks ------------------------------------------------------

  predicate TwoFollow(g: Page, s: Layout, a: seq<bv8>, b: seq<bv8>)
    requires Chunked(a, 0) && Chunked(b, 0)
  {
    RunFollows(g, s, a) && RunFollows(g, EmitRun(g, s, a, s.pen.invert), b)
  }

  /** Everything the callback draws starts with a character that goes with the last one drawn: on its row and
      as wide, or below it. Checked against the pen, run by run, before drawing. A divider fills its row with
      characters of the body face. */
  predicate RowWise(g: Page, s: Layout, cb: Callback)
    requires WellFormed(cb)
  {
    match cb
    case Text(t, style) => RunFollows(g, Styled(g, s, t, style), t)
    case LinkTo(caption, _, style) => RunFollows(g, ToMargin(Deepened(s, style.depth)), caption)
    case Divider(_, _) => Ready(g, s, FONT_ADVANCE)
    case FieldOf(f, style) => FieldFollows(g, ToMargin(Deepened(s, style.depth)), f, style)
    case Table(rows, widths, style) => FlushFollows(g, Deepened(s, style.depth), rows, widths)
    case Image(alt, url, style) => TwoFollow(g, Deepened(s, style.depth), ImageTag(), if alt != [] then alt else url)
    case Partial(url, style) => PartialFollows(g, Deepened(s, style.depth), url, style.depth)
    case _ => true
  }

  /** A text field shows a character: there is room for its first cell, which holds a value or is empty on no
      background. */
  predicate FieldDraws(s: Layout, f: Field, hasBg: bool) {
    s.pen.x + FONT_ADVANCE <= RIGHT && (f.value != [] || !hasBg)
  }

  predicate FieldFollows(g: Page, s: Layout, f: Field, style: Style)
    requires Chunked(f.caption, 0)
  {
    if f.kind == TextField then FieldDraws(s, f, HasBg(style.bg)) ==> Ready(g, s, FONT_ADVANCE)
    else Ready(g, s, FONT_ADVANCE) && (f.caption != [] ==> TwoFollow(g, OnMark(g, s, f), OneSpace(), f.caption))
  }

  /** Characters of the body face were drawn on the pen's row. */
  predicate Typed(g: Page, a: Layout, b: Layout) {
    && (RowsOk(b.log) <==> RowsOk(a.log) && Ready(g, a, FONT_ADVANCE)) && Ready(g, b, FONT_ADVANCE)
    && b.pen.y == a.pen.y && b.pen.rowH == a.pen.rowH
  }

  lemma PutTyped(g: Page, s: Layout, x: int, bytes: seq<bv8>, black: bool)
    requires !g.view.Window?
    ensures Typed(g, s, Put(g, s, Symbol(x, bytes, black))) && Put(g, s, Symbol(x, bytes, black)).pen == s.pen
  {
    hide RowsOk, Ready;
    CharRows(g, s, Symbol(x, bytes, black));
  }

  lemma TypedMoved(g: Page, a: Layout, b: Layout, c: Layout)
    requires Typed(g, a, b) && c.log == b.log && c.pen.y == b.pen.y && c.pen.rowH == b.pen.rowH
    ensures Typed(g, a, c)
  {
    hide RowsOk;
    SameReady(g, b, c, FONT_ADVANCE);
  }

  lemma TypedOn(g: Page, a: Layout, b: Layout, c: Layout)
    requires Typed(g, a, b) && (Typed(g, b, c) || (SameRows(b, c) && c.pen.y == b.pen.y && c.pen.rowH == b.pen.rowH))
    ensures Typed(g, a, c)
  {
    hide RowsOk;
    if !Typed(g, b, c) {
      SameReady(g, b, c, FONT_ADVANCE);
    }
  }

  lemma TypedAfter(g: Page, a: Layout, b: Layout, c: Layout)
    requires SameRows(a, b) && b.pen.y == a.pen.y && b.pen.rowH == a.pen.rowH && Typed(g, b, c)
    ensures Typed(g, a, c)
  {
    hide RowsOk;
    SameReady(g, a, b, FONT_ADVANCE);
  }

  predicate PartialFollows(g: Page, s: Layout, url: seq<bv8>, depth: nat)
    requires Chunked(url, 0)
  {
    RunFollows(g, s, PartialTag())
    && RunFollows(g, ToMargin(Deepened(EmitRun(g, s, PartialTag(), s.pen.invert), depth)), url)
  }

  function ImageTag(): (t: seq<bv8>)
    ensures Chunked(t, 0)
  {
    Ascii([0x5B, 0x69, 0x6D, 0x67, 0x5D, 0x20])
  }

  function PartialTag(): (t: seq<bv8>)
    ensures Chunked(t, 0)
  {
    Ascii([0x5B, 0x2B, 0x5D, 0x20])
  }

  lemma TwoRows(g: Page, s: Layout, a: seq<bv8>, b: seq<bv8>)
    requires !g.view.Window? && Chunked(a, 0) && Chunked(b, 0)
    ensures var s1 := EmitRun(g, s, a, s.pen.invert);
      RowsOk(EmitRun(g, s1, b, s1.pen.invert).log) <==> RowsOk(s.log) && TwoFollow(g, s, a, b)
  {
    hide RowsOk, EmitRun, RunFollows, RunFirst, Settled, Idle;
    RunRowsIff(g, s, a, s.pen.invert);
    var s1 := EmitRun(g, s, a, s.pen.invert);
    RunRowsIff(g, s1, b, s1.pen.invert);
  }

  lemma StyledLog(g: Page, s: Layout, t: seq<bv8>, style: Style)
    ensures Styled(g, s, t, style).log == s.log
  {
    hide AlignedX, TakesHead;
  }

  lemma TextRows(g: Page, s: Layout, t: seq<bv8>, style: Style)
    requires !g.view.Window? && Chunked(t, 0)
    ensures RowsOk(OnText(g, s, t, style).log) <==> RowsOk(s.log) && RunFollows(g, Styled(g, s, t, style), t)
  {
    hide RowsOk, EmitRun, RunFollows, RunFirst, Settled, Idle, Styled;
    StyledLog(g, s, t, style);
    var s1 := Styled(g, s, t, style);
    RunRowsIff(g, s1, t, s1.pen.invert);
  }

  lemma LinkRows(g: Page, s: Layout, caption: seq<bv8>, target: seq<bv8>, style: Style)
    requires !g.view.Window? && Chunked(caption, 0)
    ensures RowsOk(OnLink(g, s, caption, target, style).log)
       <==> RowsOk(s.log) && RunFollows(g, ToMargin(Deepened(s, style.depth)), caption)
  {
    hide RowsOk, EmitRun, RunFollows, RunFirst, Settled, Idle, LastChar, Put;
    var s1 := ToMargin(Deepened(s, style.depth));
    RunRowsIff(g, s1, caption, s1.pen.invert);
    var s2 := EmitRun(g, s1, caption, s1.pen.invert);
    PutRows(g, s2, true, Shape.Link(s1.pen.x, ScreenY(g.view, s1.pen.y), if s2.pen.x > s1.pen.x then s2.pen.x - s1.pen.x else 0, RowHeight(g, s2), target));
  }

  lemma {:induction false} DividerRows(g: Page, s: Layout, x: nat, bytes: seq<bv8>)
    requires !g.view.Window?
    ensures var b := DividerFrom(g, s, x, bytes);
      b.pen == s.pen && if x + FONT_ADVANCE <= RIGHT then Typed(g, s, b) else b == s
    decreases RIGHT - x
  {
    hide Typed, Put;
    if x + FONT_ADVANCE <= RIGHT {
      var s1 := Put(g, s, Symbol(x, bytes, true));
      PutTyped(g, s, x, bytes, true);
      DividerRows(g, s1, x + FONT_ADVANCE, bytes);
      if x + 2 * FONT_ADVANCE <= RIGHT {
        TypedOn(g, s, s1, DividerFrom(g, s, x, bytes));
      }
    }
  }

  lemma OnDividerRows(g: Page, s: Layout, ch: bv32, style: Style)
    requires !g.view.Window?
    ensures Typed(g, s, OnDivider(g, s, ch, style)) && OnDivider(g, s, ch, style).pen.rowOpen
  {
    hide RowsOk, LastChar, DividerFrom, DividerBytes;
    var s1 := ToMargin(Deepened(s, style.depth));
    SameReady(g, s, s1, FONT_ADVANCE);
    DividerRows(g, s1, Indent(s1), DividerBytes(ch));
    var b := DividerFrom(g, s1, Indent(s1), DividerBytes(ch));
    SameReady(g, b, Opened(b), FONT_ADVANCE);
  }

  // The cells of a field from the vk-th byte of its value on.
  predicate ColsDraw(s: Layout, f: Field, col: nat, vk: nat, hasBg: bool) {
    col < FieldWidth(f) && s.pen.x + FONT_ADVANCE <= RIGHT && (vk < |f.value| || !hasBg)
  }

  lemma {:induction false} FieldColsRows(g: Page, s: Layout, f: Field, col: nat, vk: nat, hasBg: bool, ink: bool)
    requires !g.view.Window?
    ensures var b := FieldCols(g, s, f, col, vk, hasBg, ink);
      && b.pen.y == s.pen.y && b.pen.rowH == s.pen.rowH && (s.pen.rowOpen ==> b.pen.rowOpen)
      && if ColsDraw(s, f, col, vk, hasBg) then Typed(g, s, b) && b.pen.rowOpen else SameRows(s, b)
    decreases FieldWidth(f) - col
  {
    hide SameRows, Put, PutIf, Typed;
    SelfRows(s);
    if col < FieldWidth(f) && s.pen.x + FONT_ADVANCE <= RIGHT {
      var c := Moved(FieldCell(g, s, f, vk, hasBg, ink), FONT_ADVANCE);
      FieldCellRows(g, s, f, vk, hasBg, ink);
      var next := if vk < |f.value| then vk + SeqLen(f.value[vk]) else vk;
      FieldColsRows(g, c, f, col + 1, next, hasBg, ink);
      var b := FieldCols(g, s, f, col, vk, hasBg, ink);
      if vk < |f.value| || !hasBg {
        TypedOn(g, s, c, b);
      } else {
        SameRowsTrans(s, c, b);
      }
    }
  }

  lemma FieldCellRows(g: Page, s: Layout, f: Field, vk: nat, hasBg: bool, ink: bool)
    requires !g.view.Window?
    ensures var c := Moved(FieldCell(g, s, f, vk, hasBg, ink), FONT_ADVANCE);
      && c.pen.y == s.pen.y && c.pen.rowH == s.pen.rowH && c.pen.rowOpen
      && if vk < |f.value| || !hasBg then Typed(g, s, c) else SameRows(s, c)
  {
    hide SameRows, Put, Typed;
    SelfRows(s);
    var bytes := if vk < |f.value| then (if f.masked then [0x2A] else ChunkAt(f.value, vk)) else [0x5F];
    var black := vk < |f.value| ==> ink;
    var b := FieldCell(g, s, f, vk, hasBg, ink);
    PutTyped(g, s, s.pen.x, bytes, black);
    if vk < |f.value| || !hasBg {
      TypedMoved(g, s, b, Moved(b, FONT_ADVANCE));
    } else {
      LogRows(s, b, Moved(b, FONT_ADVANCE));
    }
  }

  lemma TextFieldRows(g: Page, s: Layout, f: Field, style: Style)
    requires !g.view.Window?
    ensures var b := OnTextField(g, s, f, style);
      && b.pen.y == s.pen.y && b.pen.rowH == s.pen.rowH && (s.pen.rowOpen ==> b.pen.rowOpen)
      && if FieldDraws(s, f, HasBg(style.bg)) then Typed(g, s, b) && b.pen.rowOpen else SameRows(s, b)
  {
    hide SameRows, Put, PaintBg, FieldCols, Luma, HasBg, BarWidth, Typed;
    var hasBg := HasBg(style.bg);
    var luma := if hasBg then Luma(style.bg) else 255;
    var dark := hasBg && luma < 128;
    var bar := Fill(s.pen.x, BarWidth(s, f), RowHeight(g, s), true);
    PutRows(g, s, true, bar);
    PaintRows(g, s, s.pen.x, BarWidth(s, f), luma);
    SelfRows(s);
    var s1 := if dark then Put(g, s, bar) else if hasBg then PaintBg(g, s, s.pen.x, BarWidth(s, f), luma) else s;
    FieldColsRows(g, s1, f, 0, 0, hasBg, !dark);
    var b := OnTextField(g, s, f, style);
    if FieldDraws(s, f, hasBg) {
      TypedAfter(g, s, s1, b);
    } else {
      SameRowsTrans(s, s1, b);
    }
  }

  lemma MarkRows(g: Page, s: Layout, f: Field)
    requires !g.view.Window?
    ensures var b := OnMark(g, s, f); Typed(g, s, b) && b.pen == s.pen.(x := b.pen.x, rowOpen := true)
  {
    hide Typed, Put;
    var box := Put(g, s, Symbol(s.pen.x, [0xE2, 0x96, 0xA1], !s.pen.invert));
    PutTyped(g, s, s.pen.x, if f.prechecked then [0xE2, 0x97, 0x8F] else [0xE2, 0x97, 0x8B], !s.pen.invert);
    PutTyped(g, s, s.pen.x, [0xE2, 0x96, 0xA1], !s.pen.invert);
    PutTyped(g, box, s.pen.x, [0xE2, 0x9C, 0x93], !s.pen.invert);
    TypedOn(g, s, box, Put(g, box, Symbol(s.pen.x, [0xE2, 0x9C, 0x93], !s.pen.invert)));
    var s1 :=
      if f.kind == Radio then Put(g, s, Symbol(s.pen.x, if f.prechecked then [0xE2, 0x97, 0x8F] else [0xE2, 0x97, 0x8B], !s.pen.invert))
      else PutIf(g, box, f.prechecked, Symbol(s.pen.x, [0xE2, 0x9C, 0x93], !s.pen.invert));
    TypedMoved(g, s, s1, Moved(s1, FONT_ADVANCE));
  }

  lemma FieldRows(g: Page, s: Layout, f: Field, style: Style)
    requires !g.view.Window? && Chunked(f.caption, 0)
    ensures RowsOk(OnField(g, s, f, style).log) <==> RowsOk(s.log) && FieldFollows(g, ToMargin(Deepened(s, style.depth)), f, style)
  {
    hide RowsOk, LastChar, EmitRun, TwoFollow, OnMark, OnTextField;
    var s1 := ToMargin(Deepened(s, style.depth));
    if f.kind == TextField {
      TextFieldRows(g, s1, f, style);
    } else {
      MarkRows(g, s1, f);
      TwoRows(g, OnMark(g, s1, f), OneSpace(), f.caption);
    }
  }

  lemma LineEndRows(g: Page, s: Layout, style: Style)
    requires !g.view.Window?
    ensures SameRows(s, OnLineEnd(g, s, style))
    ensures OnLineEnd(g, s, style).pen.y >= s.pen.y + RowHeight(g, s)
    ensures OnLineEnd(g, s, style).pen.rowH == 0 && OnLineEnd(g, s, style).pen.head == 0 && !OnLineEnd(g, s, style).pen.bold
  {
    hide RowsOk, LastChar, PutIf, RuleWidth;
    var s1 := Deepened(s, style.depth);
    PutRows(g, s1, s1.pen.headRule && s1.pen.rowOpen, Rule(Indent(s1), RowHeight(g, s1) - 1, RuleWidth(s1, style), true));
  }

  lemma PartialRows(g: Page, s: Layout, url: seq<bv8>, style: Style)
    requires !g.view.Window? && Chunked(url, 0)
    ensures RowsOk(OnPartial(g, s, url, style).log) <==> RowsOk(s.log) && PartialFollows(g, Deepened(s, style.depth), url, style.depth)
  {
    hide RowsOk, EmitRun, RunFollows, RunFirst, Settled, Idle, OnLink;
    var s1 := Deepened(s, style.depth);
    RunRowsIff(g, s1, PartialTag(), s1.pen.invert);
    LinkRows(g, EmitRun(g, s1, PartialTag(), s1.pen.invert), url, url, style);
  }

  // ---- The theorem ----------------------------------------------------

  lemma StepRowsIff(g: Page, s: Layout, cb: Callback)
    requires !g.view.Window? && WellFormed(cb)
    ensures RowsOk(Step(g, s, cb).log) <==> RowsOk(s.log) && RowWise(g, s, cb)
  {
    hide RowsOk, LastChar, OnText, OnLink, OnDivider, OnField, OnLineEnd, TableFlush, OnPartial, EmitRun, RunFollows, TwoFollow, FlushFollows, Natural;
    match cb
    case Text(t, style) => TextRows(g, s, t, style);
    case LinkTo(caption, target, style) => LinkRows(g, s, caption, target, style);
    case Divider(ch, style) => OnDividerRows(g, s, ch, style);
    case FieldOf(f, style) => FieldRows(g, s, f, style);
    case LineEnd(style) => LineEndRows(g, s, style);
    case Table(rows, widths, style) => FlushRows(g, Deepened(s, style.depth), rows, widths);
    case Image(alt, url, style) => TwoRows(g, Deepened(s, style.depth), ImageTag(), if alt != [] then alt else url);
    case Partial(url, style) => PartialRows(g, s, url, style);
    case Blank =>
  }

  predicate RowWiseRun(g: Page, s: Layout, cbs: seq<Callback>)
    requires forall i :: 0 <= i < |cbs| ==> WellFormed(cbs[i])
    decreases |cbs|
  {
    cbs == [] || (RowWise(g, s, cbs[0]) && RowWiseRun(g, Step(g, s, cbs[0]), cbs[1..]))
  }

  /** For every callback sequence: the characters of one physical row share one height and one advance, inline
      bold, field values, marks and dividers included, and successive rows occupy disjoint increasing
      vertical ranges, exactly when everything drawn in turn starts with a character that goes with the last
      one before it. */
  lemma {:induction false} RowsUniformIff(g: Page, s: Layout, cbs: seq<Callback>)
    requires !g.view.Window? && forall i :: 0 <= i < |cbs| ==> WellFormed(cbs[i])
    ensures RowsOk(Run(g, s, cbs).log) <==> RowsOk(s.log) && RowWiseRun(g, s, cbs)
    decreases |cbs|
  {
    hide RowsOk, Step, RowWise, WellFormed;
    if cbs != [] {
      StepRowsIff(g, s, cbs[0]);
      RowsUniformIff(g, Step(g, s, cbs[0]), cbs[1..]);
    }
  }

  // ---- From the pen alone ---------------------------------------------

  /** The row height belongs to the heading face, and bold only applies to body rows. */
  predicate FaceOk(g: Page, pen: Pen) {
    && pen.head <= 3
    && pen.rowH == (if pen.head == 0 then 0 else FaceHeight(HeadFace(pen.head)) + g.cfg.leading)
    && (pen.head != 0 ==> !pen.bold)
  }

  predicate Tidy(g: Page, s: Layout) {
    FaceOk(g, s.pen) && Settled(g, s, Pace(s))
  }

  /** Enough, told from the pen alone: a blank line on an open row no taller than a line, tables under such
      a row, and literal text, fields and dividers in the body face. */
  predicate LineWise(g: Page, s: Layout, cb: Callback) {
    match cb
    case Text(t, style) => style.literal ==> Styled(g, s, t, style).pen.head == 0
    case Blank => s.pen.blankPending || !s.pen.rowOpen || RowHeight(g, s) <= LineHeight(g)
    case Table(rows, widths, _) =>
      rows != [] && widths != [] ==> RowHeight(g, s) <= LineHeight(g) && (s.pen.literal ==> s.pen.head == 0)
    case Divider(_, _) => s.pen.head == 0
    case FieldOf(f, style) =>
      (f.kind == TextField && !FieldDraws(ToMargin(Deepened(s, style.depth)), f, HasBg(style.bg))) || s.pen.head == 0
    case LineEnd(_) => true
    case _ => s.pen.literal ==> s.pen.head == 0
  }

  lemma RunTidy(g: Page, s: Layout, t: seq<bv8>, invert: bool)
    requires !g.view.Window? && Chunked(t, 0) && Tidy(g, s) && (s.pen.literal ==> s.pen.head == 0)
    ensures RunFollows(g, s, t)
    ensures var b := EmitRun(g, s, t, invert);
      Tidy(g, b) && b.pen == s.pen.(x := b.pen.x, y := b.pen.y, rowOpen := b.pen.rowOpen)
  {
    hide RowsOk, LastChar, EmitRun, ProseFirst;
    RunRowsIff(g, s, t, invert);
    var b := EmitRun(g, s, t, invert);
    SamePace(s, b);
    SameHeight(g, s, b);
    BodyPace(s);
    FirstLands(g, s, t);
    if RunFirst(g, s, t).Some? {
      if RunFirst(g, s, t).value != s.pen.y {
        ReadyBelow(g, s, Pace(s), RunFirst(g, s, t).value);
      }
    } else {
      IdleSettled(g, s, b, Pace(s));
    }
  }

  lemma BodyPace(s: Layout)
    ensures s.pen.head == 0 ==> Pace(s) == FONT_ADVANCE
  {
  }

  lemma FirstLands(g: Page, s: Layout, t: seq<bv8>)
    requires Chunked(t, 0)
    ensures RunFirst(g, s, t).Some? ==> RunFirst(g, s, t).value in {s.pen.y, s.pen.y + RowHeight(g, s)}
  {
    FirstNext(g, PullBack(s), t, 0);
    SameHeight(g, s, PullBack(s));
  }

  lemma SameTidy(g: Page, a: Layout, b: Layout)
    requires Tidy(g, a) && LastChar(b.log) == LastChar(a.log)
    requires b.pen.y == a.pen.y && (b.pen.rowOpen || !a.pen.rowOpen) && b.pen.head == a.pen.head && b.pen.rowH == a.pen.rowH && FaceOk(g, b.pen)
    ensures Tidy(g, b)
  {
    hide LastChar;
    SameHeight(g, a, b);
    BoldPace(a, b);
  }

  lemma PutTidy(g: Page, a: Layout, b: Layout)
    requires Tidy(g, a) && LastChar(b.log) == LastChar(a.log) && b.pen == a.pen
    ensures Tidy(g, b)
  {
    hide LastChar;
    SameTidy(g, a, b);
  }

  lemma BoldPace(a: Layout, b: Layout)
    requires b.pen.head == a.pen.head
    ensures Pace(a) == Pace(b)
  {
  }

  // Below everything drawn, any face will do.
  lemma ClearTidy(g: Page, s: Layout)
    requires FaceOk(g, s.pen) && Clear(s.log, s.pen.y)
    requires LastChar(s.log).Some? ==> IsChar(LastChar(s.log).value.shape)
    ensures Tidy(g, s)
  {
    hide LastChar;
  }

  lemma {:induction false} LastIsChar(log: seq<Draw>)
    ensures LastChar(log).Some? ==> IsChar(LastChar(log).value.shape)
    decreases |log|
  {
    if log != [] {
      LastIsChar(log[..|log| - 1]);
    }
  }

  lemma StyledTidy(g: Page, s: Layout, t: seq<bv8>, style: Style)
    requires Tidy(g, s)
    ensures Tidy(g, Styled(g, s, t, style)) && Styled(g, s, t, style).pen.literal == style.literal
  {
    hide LastChar, AlignedX, TakesHead, Luma, HasBg, RowHeight, Follows;
    LastIsChar(s.log);
    var b := Styled(g, s, t, style);
    StyledPen(g, s, t, style);
    if s.pen.rowOpen {
      SameTidy(g, s, b);
    } else {
      ClearTidy(g, b);
    }
  }

  lemma StyledPen(g: Page, s: Layout, t: seq<bv8>, style: Style)
    requires FaceOk(g, s.pen)
    ensures var b := Styled(g, s, t, style);
      && b.log == s.log && b.pen.y == s.pen.y && b.pen.rowOpen == s.pen.rowOpen && FaceOk(g, b.pen) && b.pen.literal == style.literal
      && (s.pen.rowOpen ==> b.pen.head == s.pen.head && b.pen.rowH == s.pen.rowH)
  {
    hide AlignedX, AllIn, Luma, HasBg;
  }

  lemma TextTidy(g: Page, s: Layout, t: seq<bv8>, style: Style)
    requires !g.view.Window? && Chunked(t, 0) && Tidy(g, s) && (style.literal ==> Styled(g, s, t, style).pen.head == 0)
    ensures RunFollows(g, Styled(g, s, t, style), t) && Tidy(g, OnText(g, s, t, style))
  {
    hide Tidy, RunFollows, EmitRun, Styled;
    StyledTidy(g, s, t, style);
    RunTidy(g, Styled(g, s, t, style), t, Styled(g, s, t, style).pen.invert);
  }

  lemma PenTidy(g: Page, a: Layout, b: Layout)
    requires Tidy(g, a) && b.log == a.log && b.pen == a.pen.(x := b.pen.x, depth := b.pen.depth)
    ensures Tidy(g, b)
  {
    hide LastChar;
    SameTidy(g, a, b);
  }

  lemma LinkTidy(g: Page, s: Layout, caption: seq<bv8>, target: seq<bv8>, style: Style)
    requires !g.view.Window? && Chunked(caption, 0) && Tidy(g, s) && (s.pen.literal ==> s.pen.head == 0)
    ensures RunFollows(g, ToMargin(Deepened(s, style.depth)), caption) && Tidy(g, OnLink(g, s, caption, target, style))
  {
    hide RunFollows, EmitRun, Put, RowsOk, LastChar;
    var s1 := ToMargin(Deepened(s, style.depth));
    PenTidy(g, s, s1);
    RunTidy(g, s1, caption, s1.pen.invert);
    var s2 := EmitRun(g, s1, caption, s1.pen.invert);
    var box := Shape.Link(s1.pen.x, ScreenY(g.view, s1.pen.y), if s2.pen.x > s1.pen.x then s2.pen.x - s1.pen.x else 0, RowHeight(g, s2), target);
    PutRows(g, s2, true, box);
    SameTidy(g, s2, Put(g, s2, box));
  }

  lemma TwoTidy(g: Page, s: Layout, a: seq<bv8>, b: seq<bv8>)
    requires !g.view.Window? && Chunked(a, 0) && Chunked(b, 0) && Tidy(g, s) && (s.pen.literal ==> s.pen.head == 0)
    ensures TwoFollow(g, s, a, b)
    ensures var s1 := EmitRun(g, s, a, s.pen.invert); Tidy(g, EmitRun(g, s1, b, s1.pen.invert))
  {
    hide RunFollows, EmitRun, Tidy;
    RunTidy(g, s, a, s.pen.invert);
    var s1 := EmitRun(g, s, a, s.pen.invert);
    RunTidy(g, s1, b, s1.pen.invert);
  }

  lemma FieldTidy(g: Page, s: Layout, f: Field, style: Style)
    requires !g.view.Window? && Chunked(f.caption, 0) && Tidy(g, s) && LineWise(g, s, FieldOf(f, style))
    ensures FieldFollows(g, ToMargin(Deepened(s, style.depth)), f, style) && Tidy(g, OnField(g, s, f, style))
  {
    hide TwoFollow, EmitRun, OnMark, OnTextField, Tidy, FieldDraws, RowsOk, Ready;
    var s1 := ToMargin(Deepened(s, style.depth));
    PenTidy(g, s, s1);
    if f.kind == TextField {
      TextFieldTidy(g, s1, f, style);
    } else {
      TidyReady(g, s1);
      MarkTidy(g, s1, f);
      TwoTidy(g, OnMark(g, s1, f), OneSpace(), f.caption);
    }
  }

  lemma TidyReady(g: Page, s: Layout)
    requires Tidy(g, s) && s.pen.head == 0
    ensures Ready(g, s, FONT_ADVANCE)
  {
    BodyPace(s);
  }

  lemma TypedTidy(g: Page, a: Layout, b: Layout)
    requires Tidy(g, a) && Typed(g, a, b) && b.pen.rowOpen && a.pen.head == 0 && b.pen.head == 0 && FaceOk(g, b.pen)
    ensures Tidy(g, b)
  {
    hide RowsOk, Ready;
    BodyPace(b);
  }

  lemma TextFieldTidy(g: Page, s: Layout, f: Field, style: Style)
    requires !g.view.Window? && Tidy(g, s) && (FieldDraws(s, f, HasBg(style.bg)) ==> s.pen.head == 0)
    ensures FieldDraws(s, f, HasBg(style.bg)) ==> Ready(g, s, FONT_ADVANCE)
    ensures Tidy(g, OnTextField(g, s, f, style))
  {
    hide OnTextField, LastChar, RowsOk;
    TextFieldRows(g, s, f, style);
    FieldColsKeepPen(g, s, f, style);
    if FieldDraws(s, f, HasBg(style.bg)) {
      TidyReady(g, s);
      TypedTidy(g, s, OnTextField(g, s, f, style));
    } else {
      SameTidy(g, s, OnTextField(g, s, f, style));
    }
  }

  lemma MarkTidy(g: Page, s: Layout, f: Field)
    requires !g.view.Window? && Tidy(g, s) && s.pen.head == 0
    ensures Tidy(g, OnMark(g, s, f)) && OnMark(g, s, f).pen.literal == s.pen.literal && OnMark(g, s, f).pen.head == s.pen.head
  {
    hide OnMark, LastChar, RowsOk;
    MarkRows(g, s, f);
    TypedTidy(g, s, OnMark(g, s, f));
  }

  lemma FieldColsKeepPen(g: Page, s: Layout, f: Field, style: Style)
    ensures var b := OnTextField(g, s, f, style); b.pen == s.pen.(x := b.pen.x, rowOpen := b.pen.rowOpen) && (s.pen.rowOpen ==> b.pen.rowOpen)
  {
    hide Put, FieldCell, Luma, HasBg, BarWidth;
    var hasBg := HasBg(style.bg);
    var luma := if hasBg then Luma(style.bg) else 255;
    var dark := hasBg && luma < 128;
    var bar := Fill(s.pen.x, BarWidth(s, f), RowHeight(g, s), true);
    PutPen(g, s, bar);
    PaintPen(g, s, s.pen.x, BarWidth(s, f), luma);
    var s1 := if dark then Put(g, s, bar) else if hasBg then PaintBg(g, s, s.pen.x, BarWidth(s, f), luma) else s;
    ColsKeepPen(g, s1, f, 0, 0, hasBg, !dark);
  }

  lemma PaintPen(g: Page, s: Layout, x: int, w: int, luma: nat)
    ensures PaintBg(g, s, x, w, luma).pen == s.pen
  {
  }

  lemma {:induction false} ColsKeepPen(g: Page, s: Layout, f: Field, col: nat, vk: nat, hasBg: bool, ink: bool)
    ensures var b := FieldCols(g, s, f, col, vk, hasBg, ink).pen; b == s.pen.(x := b.x, rowOpen := b.rowOpen) && (s.pen.rowOpen ==> b.rowOpen)
    decreases FieldWidth(f) - col
  {
    hide Put;
    if col < FieldWidth(f) && s.pen.x + FONT_ADVANCE <= RIGHT {
      if vk < |f.value| {
        PutPen(g, s, Symbol(s.pen.x, if f.masked then [0x2A] else ChunkAt(f.value, vk), ink));
      } else {
        PutPen(g, s, Symbol(s.pen.x, [0x5F], true));
      }
      var s1 := FieldCell(g, s, f, vk, hasBg, ink);
      ColsKeepPen(g, Moved(s1, FONT_ADVANCE), f, col + 1, if vk < |f.value| then vk + SeqLen(f.value[vk]) else vk, hasBg, ink);
    }
  }

  lemma BlankTidy(g: Page, s: Layout)
    requires Tidy(g, s) && (s.pen.blankPending || !s.pen.rowOpen || RowHeight(g, s) <= LineHeight(g))
    ensures Tidy(g, OnBlank(g, s))
  {
    hide LastChar;
    LastIsChar(s.log);
    if !s.pen.blankPending {
      var b := OnBlank(g, s);
      if s.pen.rowOpen {
        ReadyBelow(g, s, Pace(s), b.pen.y);
      }
      ClearTidy(g, b);
    }
  }

  lemma LineEndTidy(g: Page, s: Layout, style: Style)
    requires !g.view.Window? && Tidy(g, s)
    ensures Tidy(g, OnLineEnd(g, s, style))
  {
    hide LastChar, RowsOk, OnLineEnd;
    LineEndRows(g, s, style);
    LastIsChar(s.log);
    var b := OnLineEnd(g, s, style);
    ReadyBelow(g, s, Pace(s), b.pen.y);
    ClearTidy(g, b);
  }

  // ---- Tables under a tidy pen ----------------------------------------

  predicate LowRow(g: Page, s: Layout) {
    Tidy(g, s) && RowHeight(g, s) <= LineHeight(g) && (s.pen.literal ==> s.pen.head == 0)
  }

  lemma {:induction false} CellsTidy(g: Page, s: Layout, row: Row, fit: seq<nat>, ln: nat, c: nat, x: U16)
    requires !g.view.Window? && |row| == |fit| && RowChunked(row) && LowRow(g, s)
    ensures CellsFollow(g, s, row, fit, ln, c, x) && LowRow(g, CellsOn(g, s, row, fit, ln, c, x))
    decreases |row| - c
  {
    hide EmitRun, Slice, RunFollows, Tidy, Wrap16;
    if c < |row| {
      var t := Slice(row[c], fit[c], ln);
      ColumnTidy(g, s, x);
      RunTidy(g, AtColumn(s, x), t, false);
      var s1 := if t == [] then s else EmitRun(g, AtColumn(s, x), t, false);
      SameHeight(g, s, s1);
      CellsTidy(g, s1, row, fit, ln, c + 1, Wrap16(x + (fit[c] + GAP) * 6));
    }
  }

  lemma ColumnTidy(g: Page, s: Layout, x: U16)
    requires Tidy(g, s)
    ensures Tidy(g, AtColumn(s, x))
  {
    hide LastChar;
    SameTidy(g, s, AtColumn(s, x));
  }

  lemma LineTidy(g: Page, s: Layout, row: Row, fit: seq<nat>, ln: nat)
    requires !g.view.Window? && |row| == |fit| && RowChunked(row) && LowRow(g, s)
    ensures LineFollows(g, s, row, fit, ln) && LowRow(g, TableLine(g, s, row, fit, ln))
  {
    hide CellsOn, Gutters, CellsFollow, LastChar, RowsOk, Tidy;
    CellsTidy(g, s, row, fit, ln, 0, Indent(s));
    var s1 := CellsOn(g, s, row, fit, ln, 0, Indent(s));
    GuttersRows(g, s1, fit, 0, Indent(s));
    var s2 := Gutters(g, s1, fit, 0, Indent(s));
    PutTidy(g, s1, s2);
    DoneTidy(g, if LaidOut(g.view, s.pen.y) then s2 else s);
  }

  lemma DoneTidy(g: Page, s: Layout)
    requires LowRow(g, s)
    ensures LowRow(g, LineDone(g, s))
  {
    hide LastChar;
    LastIsChar(s.log);
    ReadyBelow(g, s, Pace(s), s.pen.y + LineHeight(g));
    ClearTidy(g, LineDone(g, s));
  }

  lemma {:induction false} LinesTidy(g: Page, s: Layout, row: Row, fit: seq<nat>, ln: nat, lines: nat)
    requires !g.view.Window? && |row| == |fit| && RowChunked(row) && LowRow(g, s)
    ensures LinesFollow(g, s, row, fit, ln, lines) && LowRow(g, TableLines(g, s, row, fit, ln, lines))
    decreases lines - ln
  {
    hide TableLine, LineFollows, LowRow;
    if ln < lines {
      LineTidy(g, s, row, fit, ln);
      LinesTidy(g, TableLine(g, s, row, fit, ln), row, fit, ln + 1, lines);
    }
  }

  lemma {:induction false} TableTidy(g: Page, s: Layout, rows: seq<Row>, fit: seq<nat>, r: nat)
    requires !g.view.Window? && TableShape(rows, fit) && LowRow(g, s)
    ensures TableFollows(g, s, rows, fit, r) && LowRow(g, TableRows(g, s, rows, fit, r))
    decreases |rows| - r
  {
    hide TableLines, LinesFollow, RowLines, RowChunked, LastChar, RowsOk, Tidy, PutIf;
    if r < |rows| {
      var n := RowLines(rows[r], fit, |rows[r]|);
      LinesTidy(g, s, rows[r], fit, 0, n);
      var s1 := TableLines(g, s, rows[r], fit, 0, n);
      var rule := Rule(Indent(s1), -1, RIGHT - Indent(s1), true);
      PutRows(g, s1, r == 0, rule);
      PutTidy(g, s1, PutIf(g, s1, r == 0, rule));
      TableTidy(g, TableRow(g, s, rows[r], fit, r == 0), rows, fit, r + 1);
    }
  }

  lemma FlushTidy(g: Page, s: Layout, rows: seq<Row>, widths: seq<nat>)
    requires !g.view.Window? && TableShape(rows, widths) && Tidy(g, s)
    requires rows != [] && widths != [] ==> LowRow(g, s)
    ensures FlushFollows(g, s, rows, widths) && Tidy(g, TableFlush(g, s, rows, widths))
  {
    hide TableRows, TableFollows, Fitted, RowChunked, LastChar, RowsOk, Put;
    if rows != [] && widths != [] {
      var fit := Fitted(widths, TableAvail(s));
      TableTidy(g, s, rows, fit, 0);
      var s1 := TableRows(g, s, rows, fit, 0);
      var rule := Rule(Indent(s1), 0, RIGHT - Indent(s1), true);
      PutRows(g, s1, true, rule);
      LastIsChar(s.log);
      TableEnds(g, s, rows, fit, 0);
      LastIsChar(Put(g, s1, rule).log);
      ClearTidy(g, TableFlush(g, s, rows, widths));
    }
  }

  // A table of at least one row ends on a closed row.
  lemma {:induction false} TableEnds(g: Page, s: Layout, rows: seq<Row>, fit: seq<nat>, r: nat)
    requires TableShape(rows, fit) && (r < |rows| || !s.pen.rowOpen)
    ensures !TableRows(g, s, rows, fit, r).pen.rowOpen
    decreases |rows| - r
  {
    hide TableLines, RowLines, RowChunked, Put;
    if r < |rows| {
      var row := rows[r];
      LinesInRange(row, fit, |row|);
      LinesEnd(g, s, row, fit, 0, RowLines(row, fit, |row|));
      var s1 := TableLines(g, s, row, fit, 0, RowLines(row, fit, |row|));
      PutPen(g, s1, Rule(Indent(s1), -1, RIGHT - Indent(s1), true));
      TableEnds(g, TableRow(g, s, row, fit, r == 0), rows, fit, r + 1);
    }
  }

  lemma {:induction false} LinesEnd(g: Page, s: Layout, row: Row, fit: seq<nat>, ln: nat, lines: nat)
    requires |row| == |fit| && RowChunked(row) && (ln < lines || !s.pen.rowOpen)
    ensures !TableLines(g, s, row, fit, ln, lines).pen.rowOpen
    decreases lines - ln
  {
    hide LineDrawn;
    if ln < lines {
      LinesEnd(g, TableLine(g, s, row, fit, ln), row, fit, ln + 1, lines);
    }
  }

  // ---- Enough from the pen --------------------------------------------

  lemma StepTidy(g: Page, s: Layout, cb: Callback)
    requires !g.view.Window? && WellFormed(cb) && Tidy(g, s) && LineWise(g, s, cb)
    ensures RowWise(g, s, cb) && Tidy(g, Step(g, s, cb))
  {
    hide Tidy, OnText, OnLink, OnDivider, OnField, OnLineEnd, OnBlank, TableFlush, EmitRun, RunFollows, TwoFollow, FlushFollows, Natural, Styled;
    match cb
    case Text(t, style) => TextTidy(g, s, t, style);
    case LinkTo(caption, target, style) => LinkTidy(g, s, caption, target, style);
    case Divider(ch, style) => DividerTidy(g, s, ch, style);
    case FieldOf(f, style) => FieldTidy(g, s, f, style);
    case LineEnd(style) => LineEndTidy(g, s, style);
    case Table(rows, widths, style) =>
      PenTidy(g, s, Deepened(s, style.depth));
      SameHeight(g, s, Deepened(s, style.depth));
      FlushTidy(g, Deepened(s, style.depth), rows, widths);
    case Image(alt, url, style) =>
      PenTidy(g, s, Deepened(s, style.depth));
      TwoTidy(g, Deepened(s, style.depth), ImageTag(), if alt != [] then alt else url);
    case Partial(url, style) => PartialTidy(g, s, url, style);
    case Blank => BlankTidy(g, s);
  }

  lemma DividerTidy(g: Page, s: Layout, ch: bv32, style: Style)
    requires !g.view.Window? && Tidy(g, s) && s.pen.head == 0
    ensures Ready(g, s, FONT_ADVANCE) && Tidy(g, OnDivider(g, s, ch, style))
  {
    hide LastChar, RowsOk, DividerFrom, DividerBytes;
    TidyReady(g, s);
    OnDividerRows(g, s, ch, style);
    var s1 := ToMargin(Deepened(s, style.depth));
    DividerRows(g, s1, Indent(s1), DividerBytes(ch));
    TypedTidy(g, s, OnDivider(g, s, ch, style));
  }

  lemma PartialTidy(g: Page, s: Layout, url: seq<bv8>, style: Style)
    requires !g.view.Window? && Chunked(url, 0) && Tidy(g, s) && (s.pen.literal ==> s.pen.head == 0)
    ensures PartialFollows(g, Deepened(s, style.depth), url, style.depth) && Tidy(g, OnPartial(g, s, url, style))
  {
    hide Tidy, EmitRun, RunFollows, OnLink;
    var s1 := Deepened(s, style.depth);
    PenTidy(g, s, s1);
    RunTidy(g, s1, PartialTag(), s1.pen.invert);
    LinkTidy(g, EmitRun(g, s1, PartialTag(), s1.pen.invert), url, url, style);
  }

  predicate LineWiseRun(g: Page, s: Layout, cbs: seq<Callback>)
    requires forall i :: 0 <= i < |cbs| ==> WellFormed(cbs[i])
    decreases |cbs|
  {
    cbs == [] || (LineWise(g, s, cbs[0]) && LineWiseRun(g, Step(g, s, cbs[0]), cbs[1..]))
  }

  lemma {:induction false} TidyRun(g: Page, s: Layout, cbs: seq<Callback>)
    requires !g.view.Window? && (forall i :: 0 <= i < |cbs| ==> WellFormed(cbs[i])) && Tidy(g, s) && LineWiseRun(g, s, cbs)
    ensures RowWiseRun(g, s, cbs)
    decreases |cbs|
  {
    hide Tidy, Step, RowWise, LineWise, WellFormed;
    if cbs != [] {
      StepTidy(g, s, cbs[0]);
      TidyRun(g, Step(g, s, cbs[0]), cbs[1..]);
    }
  }

  lemma {:induction false} LastCut(log: seq<Draw>, scroll: U16) returns (k: nat)
    requires ShortPage(log) && LastChar(Windowed(log, scroll)).Some?
    ensures k < |log| && IsChar(log[k].shape) && CutOf(log[k], LastChar(Windowed(log, scroll)).value, scroll)
    decreases |log|
  {
    var n := |log| - 1;
    WindowedSnoc(log[..n], log[n], scroll);
    assert log[..n] + [log[n]] == log;
    if Seen(Window(scroll), log[n].row) {
      LastSnoc(Windowed(log[..n], scroll), Cut(log[n], scroll));
    } else {
      assert Windowed(log[..n], scroll) + [] == Windowed(log[..n], scroll);
    }
    if Seen(Window(scroll), log[n].row) && IsChar(log[n].shape) {
      k := n;
    } else {
      k := LastCut(log[..n], scroll);
    }
  }

  function Cut(d: Draw, scroll: U16): Draw {
    Draw(Wrap16(Wrap16(d.row) - scroll), d.h, ShiftShape(d.shape, scroll))
  }

  /** Cutting a page to a window keeps the order of its rows. */
  lemma {:induction false} CutKeepsRows(log: seq<Draw>, scroll: U16)
    requires RowsOk(log) && ShortPage(log)
    ensures RowsOk(Windowed(log, scroll))
    decreases |log|
  {
    hide Windowed;
    if log == [] {
      NothingCut(scroll);
    } else {
      var n := |log| - 1;
      WindowedSnoc(log[..n], log[n], scroll);
      assert log[..n] + [log[n]] == log;
      RowsSnoc(log[..n], log[n]);
      CutKeepsRows(log[..n], scroll);
      var w := Windowed(log[..n], scroll);
      if Seen(Window(scroll), log[n].row) {
        RowsSnoc(w, Cut(log[n], scroll));
        if IsChar(log[n].shape) && LastChar(w).Some? {
          LastIsChar(w);
          var k := LastCut(log[..n], scroll);
          assert RowOrder(log[k], log[n]);
        }
      } else {
        assert w + [] == w;
      }
    }
  }

  lemma NothingCut(scroll: U16)
    ensures RowsOk(Windowed([], scroll))
  {
  }

  /** `c` is `d` as the window shows it. */
  predicate CutOf(d: Draw, c: Draw, scroll: U16) {
    d.row <= 0xFFFF && d.row == c.row + scroll && c.h == d.h && c.shape == ShiftShape(d.shape, scroll)
  }

  /** On the panel, in every frame at every scroll offset: a page that takes its callbacks line by line, as
      the pen can tell, has uniform rows that never overlap. */
  lemma RowsAreUniformAndDisjoint(cfg: Config, scroll: U16, cbs: seq<Callback>)
    requires (forall i :: 0 <= i < |cbs| ==> WellFormed(cbs[i])) && LineWiseRun(Page(cfg, Tall(scroll)), Fresh(), cbs)
    requires ShortPage(Run(Page(cfg, Tall(scroll)), Fresh(), cbs).log)
    ensures RowsOk(Run(In(cfg, scroll), Fresh(), cbs).log)
  {
    hide Run, LineWiseRun, RowWiseRun, RowsOk, WellFormed;
    var g := Page(cfg, Tall(scroll));
    assert RowsOk(Fresh().log) by { NoRows(); }
    TidyRun(g, Fresh(), cbs);
    RowsUniformIff(g, Fresh(), cbs);
    FramesAreCut(cfg, scroll, Fresh().pen, cbs);
    CutKeepsRows(Run(g, Fresh(), cbs).log, scroll);
    FillsKeepRows(Run(In(cfg, scroll), Fresh(), cbs).log, Windowed(Run(g, Fresh(), cbs).log, scroll));
  }

  // Fills bear on no row.
  lemma {:induction false} FillsKeepRows(w: seq<Draw>, v: seq<Draw>)
    requires ShowsAll(w, v)
    ensures RowsOk(w) == RowsOk(v) && LastChar(w) == LastChar(v)
    decreases |w|
  {
    if w != [] {
      var n := |w| - 1;
      assert w[..n] + [w[n]] == w;
      RowsSnoc(w[..n], w[n]);
      if v != [] && v[|v| - 1] == w[n] && ShowsAll(w[..n], v[..|v| - 1]) {
        FillsKeepRows(w[..n], v[..|v| - 1]);
        assert v[..|v| - 1] + [w[n]] == v;
        RowsSnoc(v[..|v| - 1], w[n]);
      } else {
        FillsKeepRows(w[..n], v);
      }
    }
  }

  lemma NoRows()
    ensures RowsOk(Fresh().log)
  {
  }

  // ---- Exactly when each of them breaks -------------------------------

  /** A character stands on the pen's row. */
  predicate Standing(s: Layout) {
    LastChar(s.log).Some? && LastChar(s.log).value.row == s.pen.y && LastChar(s.log).value.h > 0
  }

  /** A blank line with a character on the row, then a run whose first glyph lands where the pen now is: right
      exactly when the blank line was already pending or the row is no taller than a line. */
  lemma BlankThenRunIff(g: Page, s: Layout, t: seq<bv8>, invert: bool)
    requires !g.view.Window? && Chunked(t, 0) && Tidy(g, s) && Standing(s) && (s.pen.literal ==> s.pen.head == 0)
    requires RunFirst(g, OnBlank(g, s), t) == Some(OnBlank(g, s).pen.y)
    ensures RowsOk(EmitRun(g, OnBlank(g, s), t, invert).log)
       <==> RowsOk(s.log) && (s.pen.blankPending || RowHeight(g, s) <= LineHeight(g))
  {
    hide RowsOk, LastChar, EmitRun, RunFirst;
    var b := OnBlank(g, s);
    SamePace(s, b);
    SameHeight(g, s, b);
    BodyPace(s);
    RunRowsIff(g, b, t, invert);
    LineTall(g);
  }

  lemma LineTall(g: Page)
    ensures LineHeight(g) >= LINE_H
  {
  }

  /** A literal run on a row where a glyph of the row's face stands: right exactly when it draws nothing or
      that face is as wide as the body's, that is, when no heading face is open. */
  lemma LiteralAfterGlyphIff(g: Page, s: Layout, t: seq<bv8>, invert: bool)
    requires !g.view.Window? && Chunked(t, 0) && Tidy(g, s) && Standing(s) && s.pen.literal
    ensures RowsOk(EmitRun(g, s, t, invert).log)
       <==> RowsOk(s.log) && (RunFirst(g, s, t) == None || s.pen.head == 0)
  {
    hide RowsOk, LastChar, EmitRun;
    RunRowsIff(g, s, t, invert);
    HeadPace(g, s);
  }

  lemma HeadPace(g: Page, s: Layout)
    requires FaceOk(g, s.pen)
    ensures Pace(s) == FONT_ADVANCE <==> s.pen.head == 0
  {
  }

  /** On a row with no glyph yet a literal run is right whatever face the row was opened for. */
  lemma LiteralFirstIsRight(g: Page, s: Layout, t: seq<bv8>, invert: bool)
    requires !g.view.Window? && Chunked(t, 0) && s.pen.literal && Clear(s.log, s.pen.y) && RowsOk(s.log)
    ensures RowsOk(EmitRun(g, s, t, invert).log)
  {
    hide RowsOk, LastChar, EmitRun;
    LastIsChar(s.log);
    RunRowsIff(g, s, t, invert);
  }

  /** A table line that leaves a glyph on its row, then a run on the next: right exactly when the open face is
      no taller than a table line. */
  lemma LineThenRunIff(g: Page, s: Layout, t: seq<bv8>, x: U16, invert: bool)
    requires !g.view.Window? && Chunked(t, 0) && Tidy(g, s) && Standing(s) && (s.pen.literal ==> s.pen.head == 0)
    requires RunFirst(g, AtColumn(LineDone(g, s), x), t) == Some(LineDone(g, s).pen.y)
    ensures RowsOk(EmitRun(g, AtColumn(LineDone(g, s), x), t, invert).log)
       <==> RowsOk(s.log) && RowHeight(g, s) <= LineHeight(g)
  {
    hide RowsOk, LastChar, EmitRun, RunFirst;
    var b := AtColumn(LineDone(g, s), x);
    SamePace(s, b);
    SameHeight(g, s, b);
    BodyPace(s);
    RunRowsIff(g, b, t, invert);
    LineTall(g);
  }

  lemma BodyReadyIff(g: Page, s: Layout)
    requires Tidy(g, s) && Standing(s)
    ensures Ready(g, s, FONT_ADVANCE) <==> s.pen.head == 0
  {
    hide LastChar;
    HeadPace(g, s);
  }

  /** A field on a row where a character of the row's face stands: right exactly when it shows none of its own
      or no heading face is open. */
  lemma FieldAfterGlyphIff(g: Page, s: Layout, f: Field, style: Style)
    requires !g.view.Window? && Chunked(f.caption, 0) && Tidy(g, s) && Standing(s)
    ensures RowsOk(OnField(g, s, f, style).log)
       <==> RowsOk(s.log) && (s.pen.head == 0 || (f.kind == TextField && !FieldDraws(ToMargin(Deepened(s, style.depth)), f, HasBg(style.bg))))
  {
    hide RowsOk, LastChar, OnField, TwoFollow, OnMark, HasBg, Tidy, Standing, Ready, FieldDraws;
    var s1 := ToMargin(Deepened(s, style.depth));
    SameReady(g, s, s1, FONT_ADVANCE);
    FieldRows(g, s, f, style);
    BodyReadyIff(g, s);
    if s.pen.head == 0 {
      FieldTidy(g, s, f, style);
    }
  }

  /** A divider there: right exactly when no heading face is open. */
  lemma DividerAfterGlyphIff(g: Page, s: Layout, ch: bv32, style: Style)
    requires !g.view.Window? && Tidy(g, s) && Standing(s)
    ensures RowsOk(OnDivider(g, s, ch, style).log) <==> RowsOk(s.log) && s.pen.head == 0
  {
    hide RowsOk, LastChar, OnDivider, Tidy, Standing, Ready;
    OnDividerRows(g, s, ch, style);
    BodyReadyIff(g, s);
  }

  /** A blank line with a character on the row, then a text field: right exactly when the field shows nothing,
      or the blank line was already pending and no heading face is open, or the row is no taller than a
      line. */
  lemma BlankThenFieldIff(g: Page, s: Layout, f: Field, style: Style)
    requires !g.view.Window? && f.kind == TextField && Chunked(f.caption, 0) && Tidy(g, s) && Standing(s)
    ensures var b := OnBlank(g, s);
      var shows := FieldDraws(ToMargin(Deepened(b, style.depth)), f, HasBg(style.bg));
      var fits := if s.pen.blankPending then s.pen.head == 0 else RowHeight(g, s) <= LineHeight(g);
      RowsOk(OnField(g, b, f, style).log) <==> RowsOk(s.log) && (shows ==> fits)
  {
    hide RowsOk, LastChar, OnField, HasBg, FieldDraws;
    var b := OnBlank(g, s);
    SameReady(g, b, ToMargin(Deepened(b, style.depth)), FONT_ADVANCE);
    FieldRows(g, b, f, style);
    SameHeight(g, s, b);
    if s.pen.blankPending {
      BodyReadyIff(g, s);
    } else {
      LineTall(g);
      BlankReadyIff(g, s);
    }
  }

  lemma BlankReadyIff(g: Page, s: Layout)
    requires Tidy(g, s) && Standing(s) && !s.pen.blankPending
    ensures Ready(g, OnBlank(g, s), FONT_ADVANCE) <==> RowHeight(g, s) <= LineHeight(g)
  {
    hide LastChar;
    LineTall(g);
  }
}
