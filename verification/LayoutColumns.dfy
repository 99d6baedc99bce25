// Exactly which column widths keep every table inside its columns.
module LayoutColumns {
  import opened Geometry
  import opened Utf8
  import opened Chunks
  import opened CellWalk
  import opened TableFit
  import opened Arith
  import opened LayoutTypes
  import opened LayoutSpec
  import opened LayoutWalk
  import opened LayoutTables

  /** A column shows at most its fitted width, and its cells hold at most its natural width; whichever is
      less must end at the margin or before it. */
  predicate ColumnsHold(pen: Pen, widths: seq<nat>, fit: seq<nat>, c: nat, x: U16)
    requires |widths| == |fit|
    decreases fit, |fit| - c
  {
    c < |fit| ==>
      && (Shown(widths, fit, c) > 0 ==> x + Shown(widths, fit, c) * Pace(Layout(pen, [])) <= RIGHT)
      && ColumnsHold(pen, widths, fit, c + 1, Wrap16(x + (fit[c] + GAP) * 6))
  }

  function Shown(widths: seq<nat>, fit: seq<nat>, c: nat): nat
    requires c < |widths| == |fit|
  {
    Min(widths[c], fit[c])
  }

  // ---- Where the columns stand ----------------------------------------

  function SumFrom(fit: seq<nat>, c: nat): nat
    decreases |fit| - c
  {
    if c < |fit| then fit[c] + 1 + SumFrom(fit, c + 1) else 0
  }

  lemma {:induction false} SumFromIsSum(fit: seq<nat>, c: nat)
    requires c <= |fit|
    ensures Sum(fit) == Sum(fit[..c]) + SumFrom(fit, c) - (|fit| - c)
    decreases |fit| - c
  {
    if c < |fit| {
      SumFromIsSum(fit, c + 1);
      assert fit[..c + 1][..c] == fit[..c];
    } else {
      assert fit[..c] == fit;
    }
  }

  lemma SumFromStart(fit: seq<nat>)
    ensures SumFrom(fit, 0) == Sum(fit) + |fit|
  {
    SumFromIsSum(fit, 0);
    assert fit[..0] == [];
  }

  lemma {:induction false} RaisedAtMost(ws: seq<nat>, room: nat, sum: nat)
    requires sum > 0
    ensures Raised(ws, room, sum) <= |ws|
  {
    if ws != [] {
      RaisedAtMost(ws[..|ws| - 1], room, sum);
    }
  }

  // However the floors push it, a table stays within a few cells of the page.
  lemma FittedSmall(widths: seq<nat>, avail: nat)
    requires 0 < |widths| <= T_COLS && 6 < avail <= 66
    ensures SumFrom(Fitted(widths, avail), 0) <= 100
  {
    var fit := Fitted(widths, avail);
    SumFromStart(fit);
    hide Fitted, Sum, Capped, Raised;
    if NeedsScaling(widths, avail) {
      FittedScales(widths, avail);
      RaisedAtMost(Capped(widths, avail / 2), avail - |widths|, Sum(Capped(widths, avail / 2)));
    } else {
      FittedKeepsNatural(widths, avail);
    }
  }

  lemma AvailExact(s: Layout)
    ensures 6 * TableAvail(s) == RIGHT - Indent(s) && 6 < TableAvail(s) <= 66
  {
  }

  // ---- What a cell shows ----------------------------------------------

  lemma {:induction false} ReachLoses(p: seq<bv8>, k: nat, e: nat)
    requires e <= |p| && Reaches(p, k, e)
    ensures CellsFrom(p, e) <= CellsFrom(p, k)
    decreases e - k
  {
    if k < e {
      ReachLoses(p, k + SeqLen(p[k]), e);
    }
  }

  lemma {:induction false} SkipLoses(p: seq<bv8>, at: nat)
    ensures CellsFrom(p, SkipSpaces(p, at)) <= CellsFrom(p, at)
    decreases |p| - at
  {
    if at < |p| && p[at] == SPACE {
      assert SeqLen(p[at]) == 1;
      SkipLoses(p, at + 1);
    }
  }

  lemma {:induction false} StartLoses(p: seq<bv8>, w: nat, ln: nat)
    requires Chunked(p, 0)
    ensures CellsFrom(p, LineStart(p, w, ln)) <= Cells(p)
  {
    if ln > 0 {
      var at := LineStart(p, w, ln - 1);
      StartLoses(p, w, ln - 1);
      LineStartChunked(p, w, ln - 1);
      LineShape(p, at, w);
      ReachLoses(p, at, BreakAt(p, at, w));
      SkipLoses(p, BreakAt(p, at, w));
    }
  }

  /** A slice holds at most its column's width, and at most what its cell does. */
  lemma SliceShows(p: seq<bv8>, w: nat, ln: nat)
    requires Chunked(p, 0)
    ensures ChunkCount(Slice(p, w, ln), 0, |Slice(p, w, ln)|) <= Min(Cells(p), w)
  {
    hide Reaches, CellsFrom, BreakAt, LineStart;
    LineStartChunked(p, w, ln);
    StartLoses(p, w, ln);
    var from := LineStart(p, w, ln);
    LineShape(p, from, w);
    var to := BreakAt(p, from, w);
    FewerChunks(p, from, to, |p|);
    CountIsCells(p, from, 0, |p|);
    assert p[0..|p|] == p;
    CountIsCells(p, from, from, to);
    var t := p[from..to];
    assert t[0..|t|] == t;
    CountIsCells(t, 0, 0, |t|);
  }

  lemma {:induction false} UnderWidest(rows: seq<Row>, c: nat, n: nat, r: nat)
    requires r < n <= |rows| && forall k :: 0 <= k < |rows| ==> c < |rows[k]|
    ensures Cells(rows[r][c]) <= WidestCell(rows, c, n)
    decreases n
  {
    if r < n - 1 {
      UnderWidest(rows, c, n - 1, r);
    }
  }

  // ---- Staying inside -------------------------------------------------

  lemma {:induction false} ProseStays(left: nat, p: nat, x: U16, t: seq<bv8>, i: nat)
    requires Chunked(t, i) && MARGIN_X <= left <= x && x + ChunkCount(t, i, |t|) * p <= RIGHT
    ensures ProseWalk(left, p, x, t, i).rows == 0
    decreases |t| - i
  {
    hide ChunkCount, Chunked, SkipBlankish, WordEnd, TokenWalk;
    if i < |t| {
      TokenParts(t, i);
      var sp := SkipBlankish(t, i);
      var e := WordEnd(t, sp);
      var n, rest := sp - i + ChunkCount(t, sp, e), ChunkCount(t, e, |t|);
      Distributes(n, rest, p);
      Grows(0, rest, p);
      TokenStays(left, p, x, sp - i, ChunkCount(t, sp, e));
      ProseStays(left, p, x + n * p, t, e);
    }
  }

  lemma TokenParts(t: seq<bv8>, i: nat)
    requires Chunked(t, i) && i < |t|
    ensures var sp := SkipBlankish(t, i); var e := WordEnd(t, sp);
      && i <= sp <= e <= |t| && i < e && Chunked(t, e)
      && ChunkCount(t, i, |t|) == sp - i + ChunkCount(t, sp, e) + ChunkCount(t, e, |t|)
  {
    TokenReach(t, i);
    SkipBlankishBounds(t, i);
    var sp := SkipBlankish(t, i);
    BlanksCount(t, i, sp, WordEnd(t, sp));
    CountParts(t, i, WordEnd(t, sp), |t|);
  }

  lemma {:induction false} CountParts(t: seq<bv8>, i: nat, m: nat, e: nat)
    requires i <= m <= e <= |t| && Reaches(t, i, m)
    ensures ChunkCount(t, i, e) == ChunkCount(t, i, m) + ChunkCount(t, m, e)
    decreases m - i
  {
    if i < m {
      CountParts(t, i + SeqLen(t[i]), m, e);
    }
  }

  lemma TokenStays(left: nat, p: nat, x: U16, lead: nat, word: nat)
    requires MARGIN_X <= left <= x && x + (lead + word) * p <= RIGHT
    ensures TokenWalk(left, p, x, lead, word) == Stop(0, x + (lead + word) * p)
  {
    Distributes(lead, word, p);
    Grows(0, lead, p);
    Grows(0, word, p);
    hide LongWalk;
    var a, b := lead * p, word * p;
    assert ShortWalk(left, x, a, b) == Stop(0, x + a + b);
  }

  // ---- Going over -----------------------------------------------------

  /** A cell of n letters. */
  function Letters(n: nat): seq<bv8> {
    seq(n, _ => 0x61)
  }

  lemma {:induction false} LettersFrom(n: nat, k: nat, e: nat)
    requires k <= e <= n
    ensures Chunked(Letters(n), k) && CellsFrom(Letters(n), k) == n - k && ChunkCount(Letters(n), k, e) == e - k
    ensures WordEnd(Letters(n), k) == n && SkipBlankish(Letters(n), k) == k
    decreases n - k
  {
    if k < n {
      assert SeqLen(Letters(n)[k]) == 1;
      LettersFrom(n, k + 1, if e == k then k + 1 else e);
    }
  }

  lemma {:induction false} LettersTake(n: nat, e: nat, w: nat)
    requires e <= n
    ensures TakeEnd(Letters(n), e, w) == Min(e + w, n)
    decreases w
  {
    if e < n && w > 0 {
      assert SeqLen(Letters(n)[e]) == 1;
      LettersTake(n, e + 1, w - 1);
    }
  }

  lemma {:induction false} LettersBack(n: nat, brk: nat)
    requires brk <= n
    ensures BackToSpace(Letters(n), 0, brk) == 0
    decreases brk
  {
    if brk > 0 {
      LettersBack(n, brk - 1);
    }
  }

  /** Its first line is as many letters as its column takes. */
  lemma LettersSlice(n: nat, w: nat)
    ensures Chunked(Letters(n), 0) && Slice(Letters(n), w, 0) == Letters(Min(n, w))
  {
    LettersFrom(n, 0, 0);
    LettersTake(n, 0, w);
    LettersBack(n, Min(n, w));
    hide TakeEnd, BackToSpace, Chunked;
    assert LineStart(Letters(n), w, 0) == 0;
    assert BreakAt(Letters(n), 0, w) == Min(n, w);
  }

  lemma {:induction false} LongWraps(left: nat, p: nat, x: U16, n: nat)
    requires left <= x <= 10000 && 0 < p <= 12 && (x > left || x + p <= RIGHT) && x + n * p > RIGHT && n > 0
    ensures LongWalk(left, p, x, n).rows > 0
    decreases n
  {
    if !(x > left && x + p > RIGHT) {
      var rest := (n - 1) * p;
      assert n * p == p + rest by { Distributes(1, n - 1, p); }
      assert n == 1 ==> rest == 0;
      LongWraps(left, p, x + p, n - 1);
    }
  }

  lemma LettersWrap(pen: Pen, x: U16, n: nat)
    requires !pen.literal && Indent(Layout(pen, [])) <= x <= 10000 && 0 < n <= 2000
    requires x + n * Pace(Layout(pen, [])) > RIGHT
    ensures Chunked(Letters(n), 0) && RunWalk(AtCell(pen, x), Letters(n)).rows > 0
  {
    var s, z := Layout(AtCell(pen, x), []), Layout(pen, []);
    SamePace(s, z);
    var p, left := Pace(z), Indent(z);
    assert 6 <= p <= 12 && 2 <= left <= 50;
    LettersFrom(n, 0, n);
    LettersFrom(n, n, n);
    hide Pace, Indent, Chunked, ChunkCount, WordEnd, SkipBlankish;
    Grows(n, 2000, p);
    Zero(p);
    if Wrap16(n * p) > CONTENT_W - (left - MARGIN_X) {
      LongWraps(left, p, x, n);
    }
    assert TokenWalk(left, p, x, 0, n).rows > 0;
    OneToken(left, p, x, n);
  }

  lemma Zero(p: nat)
    ensures 0 * p == 0
  {
  }

  lemma OneToken(left: nat, p: nat, x: U16, n: nat)
    requires n > 0
    ensures Chunked(Letters(n), 0) && ProseWalk(left, p, x, Letters(n), 0).rows == TokenWalk(left, p, x, 0, n).rows
  {
    LettersFrom(n, 0, n);
    LettersFrom(n, n, n);
    hide Chunked, ChunkCount, WordEnd, SkipBlankish, TokenWalk;
    assert ProseWalk(left, p, TokenWalk(left, p, x, 0, n).x, Letters(n), n).rows == 0;
  }

  // ---- The columns ----------------------------------------------------

  lemma {:induction false} HeldColumnsStay(pen: Pen, rows: seq<Row>, widths: seq<nat>, fit: seq<nat>, r: nat, ln: nat, c: nat, x: U16)
    requires TableShape(rows, widths) && Natural(rows, widths) && |fit| == |widths| && r < |rows|
    requires Indent(Layout(pen, [])) <= x && x + 6 * SumFrom(fit, c) <= 60000
    requires pen.literal || ColumnsHold(pen, widths, fit, c, x)
    ensures LineWraps(pen, rows[r], fit, ln, c, x) == 0
    decreases |fit| - c
  {
    hide Slice, ChunkCount, WidestCell, Indent, RunWalk, Pace;
    if c < |fit| {
      NextColumn(fit, c, x);
      var t := Slice(rows[r][c], fit[c], ln);
      SliceShows(rows[r][c], fit[c], ln);
      UnderWidest(rows, c, |rows|, r);
      CellStaysIn(pen, t, x, Shown(widths, fit, c));
      HeldColumnsStay(pen, rows, widths, fit, r, ln, c + 1, x + (fit[c] + GAP) * 6);
    }
  }

  lemma NextColumn(fit: seq<nat>, c: nat, x: U16)
    requires c < |fit| && x + 6 * SumFrom(fit, c) <= 60000
    ensures Wrap16(x + (fit[c] + GAP) * 6) == x + (fit[c] + GAP) * 6
    ensures x + (fit[c] + GAP) * 6 + 6 * SumFrom(fit, c + 1) <= 60000
  {
  }

  lemma CellStaysIn(pen: Pen, t: seq<bv8>, x: U16, n: nat)
    requires Chunked(t, 0) && ChunkCount(t, 0, |t|) <= n && Indent(Layout(pen, [])) <= x
    requires pen.literal || (n > 0 ==> x + n * Pace(Layout(pen, [])) <= RIGHT)
    ensures RunWalk(AtCell(pen, x), t).rows == 0
  {
    var s, z := Layout(AtCell(pen, x), []), Layout(pen, []);
    SamePace(s, z);
    if !pen.literal && t != [] {
      assert ChunkCount(t, 0, |t|) > 0;
      assert MARGIN_X <= Indent(z);
      hide Pace, Indent, ChunkCount, Chunked;
      Grows(ChunkCount(t, 0, |t|), n, Pace(z));
      ProseStays(Indent(z), Pace(z), x, t, 0);
    }
  }

  lemma {:induction false} OverColumnsWrap(pen: Pen, widths: seq<nat>, fit: seq<nat>, c: nat, x: U16)
    requires |fit| == |widths| && !pen.literal
    requires Indent(Layout(pen, [])) <= x && x + 6 * SumFrom(fit, c) <= 10000
    requires !ColumnsHold(pen, widths, fit, c, x)
    ensures RowChunked(LetterRow(widths)) && LineWraps(pen, LetterRow(widths), fit, 0, c, x) > 0
    decreases |fit| - c
  {
    hide Slice, ChunkCount, Indent, RunWalk, Pace;
    LetterRowChunked(widths);
    LettersSlice(widths[c], fit[c]);
    var n := Shown(widths, fit, c);
    if n > 0 && x + n * Pace(Layout(pen, [])) > RIGHT {
      LettersWrap(pen, x, n);
    } else {
      OverColumnsWrap(pen, widths, fit, c + 1, x + (fit[c] + GAP) * 6);
    }
  }

  /** One row of letters, as many in each cell as its column is naturally wide. */
  function LetterRow(widths: seq<nat>): (row: Row)
    ensures |row| == |widths|
  {
    seq(|widths|, c requires 0 <= c < |widths| => Letters(widths[c]))
  }

  lemma LetterRowChunked(widths: seq<nat>)
    ensures RowChunked(LetterRow(widths))
  {
    forall c | 0 <= c < |widths|
      ensures Chunked(LetterRow(widths)[c], 0)
    {
      LettersFrom(widths[c], 0, 0);
    }
  }

  lemma LetterRowNatural(widths: seq<nat>)
    requires |widths| <= T_COLS
    ensures TableShape([LetterRow(widths)], widths) && Natural([LetterRow(widths)], widths)
  {
    LetterRowChunked(widths);
    forall c | 0 <= c < |widths|
      ensures widths[c] == WidestCell([LetterRow(widths)], c, 1)
    {
      LettersFrom(widths[c], 0, 0);
      assert WidestCell([LetterRow(widths)], c, 0) == 0;
    }
  }

  predicate WidthsHold(pen: Pen, widths: seq<nat>)
    requires 0 < |widths| <= T_COLS
  {
    var s := Layout(pen, []);
    pen.literal || ColumnsHold(pen, widths, Fitted(widths, TableAvail(s)), 0, Indent(s))
  }

  /** For given natural widths, over every table that has them and any two scroll offsets: the pen is left
      alike exactly when the text is literal or every column ends at the margin or before it. */
  lemma TablesAlikeIff(cfg: Config, s: Layout, widths: seq<nat>)
    requires 0 < |widths| <= T_COLS && s.pen.y + MAX_LINES * LineHeight(Whole(cfg)) + PARA_GAP <= PAST
    ensures WidthsHold(s.pen, widths) <==>
      forall rows: seq<Row>, a: U16, b: U16 | TableShape(rows, widths) && Natural(rows, widths) ::
        TableFlush(In(cfg, a), s, rows, widths).pen == TableFlush(In(cfg, b), s, rows, widths).pen
  {
    hide TableFlush, Fitted, ColumnsHold, Natural, LineHeight, TableSafe;
    if WidthsHold(s.pen, widths) {
      forall rows: seq<Row>, a: U16, b: U16 | TableShape(rows, widths) && Natural(rows, widths)
        ensures TableFlush(In(cfg, a), s, rows, widths).pen == TableFlush(In(cfg, b), s, rows, widths).pen
      {
        HeldWidthsAreSafe(s.pen, rows, widths);
        SafeAlike(In(cfg, a), s, rows, widths);
        SafeAlike(In(cfg, b), s, rows, widths);
      }
    } else {
      LetterRowNatural(widths);
      OverWidthsAreUnsafe(s.pen, widths);
      OneRowBeyond(cfg, s, LetterRow(widths), widths);
      var scroll := UnsafeShows(cfg, s, [LetterRow(widths)], widths);
      assert TableFlush(In(cfg, scroll), s, [LetterRow(widths)], widths).pen != TableFlush(In(cfg, PAST), s, [LetterRow(widths)], widths).pen;
    }
  }

  lemma HeldWidthsAreSafe(pen: Pen, rows: seq<Row>, widths: seq<nat>)
    requires 0 < |widths| <= T_COLS && TableShape(rows, widths) && Natural(rows, widths) && WidthsHold(pen, widths)
    ensures TableSafe(pen, rows, widths)
  {
    hide Fitted, ColumnsHold, Natural, SumFrom, RowChunked;
    var s := Layout(pen, []);
    var fit := Fitted(widths, TableAvail(s));
    AvailExact(s);
    FittedSmall(widths, TableAvail(s));
    forall r, ln | 0 <= r < |rows| && 0 <= ln < RowLines(rows[r], fit, |rows[r]|)
      ensures WrapsOf(pen, rows[r], fit, ln) == 0
    {
      HeldColumnsStay(pen, rows, widths, fit, r, ln, 0, Indent(s));
    }
  }

  lemma OverWidthsAreUnsafe(pen: Pen, widths: seq<nat>)
    requires 0 < |widths| <= T_COLS && !WidthsHold(pen, widths) && TableShape([LetterRow(widths)], widths)
    ensures !TableSafe(pen, [LetterRow(widths)], widths)
    ensures WrapsOf(pen, LetterRow(widths), Fitted(widths, TableAvail(Layout(pen, []))), 0) > 0
  {
    hide Fitted, ColumnsHold, SumFrom, RowChunked, RowLines, LetterRow;
    var s := Layout(pen, []);
    var rows := [LetterRow(widths)];
    var fit := Fitted(widths, TableAvail(s));
    AvailExact(s);
    FittedSmall(widths, TableAvail(s));
    OverColumnsWrap(pen, widths, fit, 0, Indent(s));
    LinesInRange(rows[0], fit, |rows[0]|);
    assert WrapsOf(pen, rows[0], fit, 0) > 0;
    assert !RowHolds(pen, rows[0], fit);
  }

  // ---- In the body face -----------------------------------------------

  /** At six pixels a cell the condition is met when the fitted widths and the gaps between them fit the
      page, and only then if the last column was not raised above its natural width. */
  lemma BodyWidthsHold(pen: Pen, widths: seq<nat>)
    requires 0 < |widths| <= T_COLS && pen.head == 0
    ensures var s := Layout(pen, []); var fit := Fitted(widths, TableAvail(s)); var n := |widths| - 1;
      && (ColumnsFit(widths, TableAvail(s)) ==> WidthsHold(pen, widths))
      && (0 < fit[n] <= widths[n] && !pen.literal && WidthsHold(pen, widths) ==> ColumnsFit(widths, TableAvail(s)))
  {
    hide Fitted, SumFrom;
    var s := Layout(pen, []);
    var fit := Fitted(widths, TableAvail(s));
    AvailExact(s);
    FittedSmall(widths, TableAvail(s));
    SumFromStart(fit);
    BodyColumnsHold(pen, widths, fit, 0, Indent(s));
  }

  lemma {:induction false} BodyColumnsHold(pen: Pen, widths: seq<nat>, fit: seq<nat>, c: nat, x: U16)
    requires c < |widths| == |fit| && pen.head == 0 && x + 6 * SumFrom(fit, c) <= 60000
    ensures x + 6 * SumFrom(fit, c) <= RIGHT + 6 ==> ColumnsHold(pen, widths, fit, c, x)
    ensures 0 < fit[|fit| - 1] <= widths[|fit| - 1] && ColumnsHold(pen, widths, fit, c, x) ==> x + 6 * SumFrom(fit, c) <= RIGHT + 6
    decreases |fit| - c
  {
    assert Pace(Layout(pen, [])) == 6;
    hide Pace;
    if c + 1 < |fit| {
      BodyColumnsHold(pen, widths, fit, c + 1, x + (fit[c] + GAP) * 6);
    } else {
      assert SumFrom(fit, c + 1) == 0;
      assert ColumnsHold(pen, widths, fit, c + 1, Wrap16(x + (fit[c] + GAP) * 6));
    }
  }
}
