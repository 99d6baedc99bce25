// The box recorded for a link: exactly when it lies on the link's last row, and when it has any width.
module LayoutLinks {
  import opened Geometry
  import opened Utf8
  import opened Chunks
  import opened Arith
  import opened LayoutTypes
  import opened LayoutSpec
  import opened LayoutWalk
  import opened LayoutColumns
  import opened LayoutRects

  /** The box `OnLink` records for a caption that starts at the pen s. */
  function LinkBox(g: Page, s: Layout, caption: seq<bv8>, target: seq<bv8>): Shape
    requires Chunked(caption, 0)
  {
    var b := EmitRun(g, s, caption, s.pen.invert);
    Shape.Link(s.pen.x, ScreenY(g.view, s.pen.y), if b.pen.x > s.pen.x then b.pen.x - s.pen.x else 0, RowHeight(g, b), target)
  }

  /** Where a link's caption starts. */
  function LinkStart(s: Layout, style: Style): Layout {
    ToMargin(Deepened(s, style.depth))
  }

  lemma OnLinkRecords(g: Page, s: Layout, caption: seq<bv8>, target: seq<bv8>, style: Style)
    requires Chunked(caption, 0)
    ensures var a := LinkStart(s, style);
      OnLink(g, s, caption, target, style) == Put(g, EmitRun(g, a, caption, a.pen.invert), LinkBox(g, a, caption, target))
  {
    hide EmitRun;
  }

  /** A caption that draws or skips anything where the pen stands. */
  predicate Advances(pen: Pen, caption: seq<bv8>) {
    caption != [] && (pen.literal ==> pen.x + FONT_ADVANCE <= RIGHT)
  }

  /** For every caption of up to five thousand bytes and every pen: the box is recorded on the row the link
      ends on exactly when the caption did not wrap, and has any width exactly when the link ends right of
      where it started; unwrapped, that is whenever the caption advances at all. Rows and columns are those
      of the walk from the pen before the call. */
  lemma LinkBoxIff(g: Page, s: Layout, caption: seq<bv8>, target: seq<bv8>, style: Style)
    requires Chunked(caption, 0) && |caption| <= MAX_RUN
    ensures var a := LinkStart(s, style);
      var end := EmitRun(g, a, caption, a.pen.invert);
      var w := RunWalk(a.pen, caption);
      var box := LinkBox(g, a, caption, target);
      && (!g.view.Window? ==> (box.y == end.pen.y <==> w.rows == 0))
      && (box.w > 0 <==> w.x > a.pen.x)
      && (w.rows == 0 ==> (box.w > 0 <==> Advances(a.pen, caption)))
  {
    hide EmitRun, RunWalk, Pace, Indent;
    var a := LinkStart(s, style);
    RunWalks(g, a, caption, a.pen.invert);
    var w := RunWalk(a.pen, caption);
    WentKeeps(g, a, EmitRun(g, a, caption, a.pen.invert), w.rows, w.x);
    RowPositive(g, a);
    SamePace(a, Layout(a.pen, []));
    SamePace(a, Deepened(s, style.depth));
    if w.rows == 0 {
      Unwrapped(a.pen, caption);
    }
  }

  lemma RowPositive(g: Page, s: Layout)
    ensures RowHeight(g, s) > 0
  {
  }

  // ---- Unwrapped runs -------------------------------------------------

  lemma Unwrapped(pen: Pen, t: seq<bv8>)
    requires Chunked(t, 0) && |t| <= MAX_RUN && RunWalk(pen, t).rows == 0
    requires pen.rowOpen || pen.x == Indent(Layout(pen, []))
    ensures RunWalk(pen, t).x >= pen.x
    ensures RunWalk(pen, t).x > pen.x <==> Advances(pen, t)
  {
    var s := Layout(pen, []);
    if pen.literal {
      LiteralMoves(ToMargin(s).pen.x, t, 0);
    } else {
      assert 6 <= Pace(s) <= 12 && MARGIN_X <= Indent(s) <= 50;
      hide Pace, Indent;
      ProseMoves(Indent(s), Pace(s), pen.x, t, 0);
    }
  }

  lemma {:induction false} LiteralMoves(x: U16, t: seq<bv8>, k: nat)
    ensures LiteralWalk(x, t, k) >= x
    ensures LiteralWalk(x, t, k) > x <==> k < |t| && x + FONT_ADVANCE <= RIGHT
    decreases |t| - k
  {
    if k < |t| && x + FONT_ADVANCE <= RIGHT {
      LiteralMoves(x + FONT_ADVANCE, t, k + SeqLen(t[k]));
    }
  }

  // Without a wrap the pen only moves right, and by at least a cell for every token.
  lemma {:induction false} ProseMoves(left: nat, p: nat, x: U16, t: seq<bv8>, i: nat)
    requires Chunked(t, i) && |t| <= MAX_RUN && 6 <= p <= 12 && MARGIN_X <= left <= 50
    requires ProseWalk(left, p, x, t, i).rows == 0
    ensures ProseWalk(left, p, x, t, i).x >= x
    ensures i < |t| ==> ProseWalk(left, p, x, t, i).x > x
    decreases |t| - i
  {
    hide ChunkCount, Chunked, SkipBlankish, WordEnd, TokenWalk;
    if i < |t| {
      TokenParts(t, i);
      var sp := SkipBlankish(t, i);
      var e := WordEnd(t, sp);
      TokenTakes(t, i);
      var a := TokenWalk(left, p, x, sp - i, ChunkCount(t, sp, e));
      TokenMoves(left, p, x, sp - i, ChunkCount(t, sp, e));
      ProseMoves(left, p, a.x, t, e);
    }
  }

  lemma TokenTakes(t: seq<bv8>, i: nat)
    requires Chunked(t, i) && i < |t|
    ensures var sp := SkipBlankish(t, i); var e := WordEnd(t, sp);
      i <= sp <= e <= |t| && 0 < sp - i + ChunkCount(t, sp, e) <= |t|
  {
    TokenBounds(t, i);
    var sp := SkipBlankish(t, i);
    FewChunks(t, sp, WordEnd(t, sp));
  }

  lemma TokenMoves(left: nat, p: nat, x: U16, lead: nat, word: nat)
    requires 6 <= p <= 12 && MARGIN_X <= left <= 50 && 0 < lead + word <= MAX_RUN
    requires TokenWalk(left, p, x, lead, word).rows == 0
    ensures TokenWalk(left, p, x, lead, word).x > x
  {
    Distributes(lead, word, p);
    Grows(lead + word, MAX_RUN, p);
    Grows(1, lead + word, p);
    Grows(0, lead, p);
    Grows(0, word, p);
    Within(p);
    if Wrap16(word * p) > CONTENT_W - (left - MARGIN_X) {
      LongMoves(left, p, x, lead + word);
    } else {
      ShortMoves(left, x, lead * p, word * p);
    }
  }

  lemma Within(p: nat)
    requires p <= 12
    ensures MAX_RUN * p <= 60000
  {
  }

  lemma ShortMoves(left: nat, x: U16, a: nat, b: nat)
    requires 0 < a + b <= 60000 && MARGIN_X <= left <= 50 && b <= CONTENT_W && ShortWalk(left, x, a, b).rows == 0
    ensures ShortWalk(left, x, a, b).x > x
  {
  }

  lemma {:induction false} LongMoves(left: nat, p: nat, x: U16, n: nat)
    requires 6 <= p <= 12 && MARGIN_X <= left <= 50 && n > 0 && LongWalk(left, p, x, n).rows == 0
    ensures LongWalk(left, p, x, n).x > x
    decreases n
  {
    if n > 1 {
      LongMoves(left, p, x + p, n - 1);
    } else {
      assert LongWalk(left, p, x + p, 0) == Stop(0, x + p);
    }
  }
}
