// A table draws every character of every cell, once.
module LayoutTableText {
  import opened Geometry
  import opened Utf8
  import opened Chunks
  import opened CellWalk
  import opened TableFit
  import opened LayoutTypes
  import opened LayoutSpec
  import opened LayoutWalk
  import opened LayoutText
  import opened LayoutTables

  // ---- One cell -------------------------------------------------------

  lemma {:induction false} SliceSays(p: seq<bv8>, from: nat, k: nat, to: nat)
    requires from <= k <= to <= |p| && Chunked(p, k) && Reaches(p, k, to)
    ensures Codepoints(p[from..to], k - from, to - from) == Codepoints(p, k, to)
    decreases |p| - k
  {
    hide OneChunk, Reaches, Chunked;
    if k < to {
      var next := k + SeqLen(p[k]);
      ReachStep(p, k, to);
      ChunkStep(p, k);
      SameChunk(p, from, k, to);
      SliceSays(p, from, next, to);
    }
  }

  lemma ChunkStep(p: seq<bv8>, k: nat)
    requires k < |p| && Chunked(p, k)
    ensures Chunked(p, k + SeqLen(p[k]))
  {
  }

  lemma SameChunk(p: seq<bv8>, from: nat, k: nat, to: nat)
    requires from <= k < to <= |p| && k + SeqLen(p[k]) <= to
    ensures p[from..to][k - from] == p[k] && OneChunk(p[from..to], k - from) == OneChunk(p, k)
  {
    SubSlice(p, from, to, k, k + SeqLen(p[k]));
    hide SeqLen, BlankChunk;
    assert ChunkAt(p[from..to], k - from) == ChunkAt(p, k);
  }

  lemma SubSlice(p: seq<bv8>, from: nat, to: nat, a: nat, b: nat)
    requires from <= a <= b <= to <= |p|
    ensures p[from..to][a - from..b - from] == p[a..b] && (a < to ==> p[from..to][a - from] == p[a])
  {
    var t := p[from..to];
    var u, v := t[a - from..b - from], p[a..b];
    assert |u| == |v| && forall i :: 0 <= i < |u| ==> u[i] == t[a - from + i] == p[a + i] == v[i];
  }

  lemma ReachStep(p: seq<bv8>, k: nat, to: nat)
    requires k < to <= |p| && Reaches(p, k, to)
    ensures k + SeqLen(p[k]) <= to && Reaches(p, k + SeqLen(p[k]), to)
  {
  }

  /** What lines ln on of a cell say. */
  function LinesSay(p: seq<bv8>, w: nat, ln: nat, lines: nat): seq<seq<bv8>>
    requires Chunked(p, 0)
    decreases lines - ln
  {
    if ln < lines then SliceWords(p, w, ln) + LinesSay(p, w, ln + 1, lines) else []
  }

  function SliceWords(p: seq<bv8>, w: nat, ln: nat): seq<seq<bv8>>
    requires Chunked(p, 0)
  {
    var t := Slice(p, w, ln);
    Codepoints(t, 0, |t|)
  }

  lemma LineSays(p: seq<bv8>, w: nat, ln: nat)
    requires Chunked(p, 0)
    ensures LineStart(p, w, ln) <= LineStart(p, w, ln + 1) <= |p|
    ensures Codepoints(p, LineStart(p, w, ln), |p|) == SliceWords(p, w, ln) + Codepoints(p, LineStart(p, w, ln + 1), |p|)
  {
    hide Codepoints, BreakAt;
    LineStartChunked(p, w, ln);
    var from := LineStart(p, w, ln);
    LineShape(p, from, w);
    var to, next := BreakAt(p, from, w), NextLine(p, from, w);
    SliceSays(p, from, from, to);
    CodepointsSplit(p, from, to, |p|);
    BlanksDropOut(p, to, next, |p|);
  }

  lemma {:induction false} LinesSayAll(p: seq<bv8>, w: nat, ln: nat, lines: nat)
    requires w > 0 && Chunked(p, 0) && ln <= lines && Lines(p, 0, w) <= lines
    ensures LinesSay(p, w, ln, lines) == Codepoints(p, LineStart(p, w, ln), |p|)
    decreases lines - ln
  {
    hide Codepoints, Lines, LineStart, SliceWords;
    if ln < lines {
      LineSays(p, w, ln);
      LinesSayAll(p, w, ln + 1, lines);
    } else {
      LastLine(p, w, ln);
      NoCodepoints(p, LineStart(p, w, ln));
    }
  }

  // Past the last line there is nothing.
  lemma LastLine(p: seq<bv8>, w: nat, ln: nat)
    requires w > 0 && Chunked(p, 0) && Lines(p, 0, w) <= ln
    ensures LineStart(p, w, ln) >= |p|
  {
    WalksAgree(p, w, ln);
  }
  // ---- Rows -----------------------------------------------------------

  type Words = multiset<seq<bv8>>

  /** What one line of a row says, from cell c on. */
  function LineWords(row: Row, fit: seq<nat>, ln: nat, c: nat): Words
    requires |row| == |fit| && RowChunked(row)
    decreases |row| - c
  {
    if c < |row| then multiset(SliceWords(row[c], fit[c], ln)) + LineWords(row, fit, ln, c + 1) else multiset{}
  }

  /** What the lines from ln on say, of the cells from c on. */
  function RowSays(row: Row, fit: seq<nat>, ln: nat, lines: nat, c: nat): Words
    requires |row| == |fit| && RowChunked(row)
    decreases |row| - c
  {
    if c < |row| then multiset(LinesSay(row[c], fit[c], ln, lines)) + RowSays(row, fit, ln, lines, c + 1) else multiset{}
  }

  lemma {:induction false} LineByLine(row: Row, fit: seq<nat>, ln: nat, lines: nat, c: nat)
    requires |row| == |fit| && RowChunked(row) && ln < lines
    ensures RowSays(row, fit, ln, lines, c) == LineWords(row, fit, ln, c) + RowSays(row, fit, ln + 1, lines, c)
    decreases |row| - c
  {
    hide SliceWords, LinesSay;
    if c < |row| {
      LineByLine(row, fit, ln, lines, c + 1);
      FirstLine(row[c], fit[c], ln, lines);
      Shuffled(multiset(SliceWords(row[c], fit[c], ln)), multiset(LinesSay(row[c], fit[c], ln + 1, lines)),
               LineWords(row, fit, ln, c + 1), RowSays(row, fit, ln + 1, lines, c + 1));
    }
  }

  lemma FirstLine(p: seq<bv8>, w: nat, ln: nat, lines: nat)
    requires Chunked(p, 0) && ln < lines
    ensures multiset(LinesSay(p, w, ln, lines)) == multiset(SliceWords(p, w, ln)) + multiset(LinesSay(p, w, ln + 1, lines))
  {
    hide SliceWords;
    InkedMore(SliceWords(p, w, ln), LinesSay(p, w, ln + 1, lines));
  }

  lemma Shuffled(a: Words, b: Words, c: Words, d: Words)
    ensures (a + b) + (c + d) == (a + c) + (b + d)
  {
  }

  lemma {:induction false} NoLines(row: Row, fit: seq<nat>, ln: nat, c: nat)
    requires |row| == |fit| && RowChunked(row)
    ensures RowSays(row, fit, ln, ln, c) == multiset{}
    decreases |row| - c
  {
    if c < |row| {
      NoLines(row, fit, ln, c + 1);
    }
  }

  lemma InkedMore(a: seq<seq<bv8>>, b: seq<seq<bv8>>)
    ensures multiset(a + b) == multiset(a) + multiset(b)
  {
  }

  lemma CellWords(cfg: Config, s: Layout, x: U16, p: seq<bv8>, w: nat, ln: nat)
    requires Chunked(p, 0) && !s.pen.literal
    ensures var t := Slice(p, w, ln); var b := if t == [] then s else EmitRun(Whole(cfg), AtColumn(s, x), t, false);
      multiset(Inked(b.log)) == multiset(Inked(s.log)) + multiset(SliceWords(p, w, ln)) && !b.pen.literal
  {
    hide Inked, EmitRun, Slice, Codepoints;
    var t := Slice(p, w, ln);
    if t == [] {
      NoCodepoints(t, 0);
    } else {
      RunLosesNothing(cfg, AtColumn(s, x), t, false);
      RunWalks(Whole(cfg), AtColumn(s, x), t, false);
    }
  }

  lemma {:induction false} CellsWords(cfg: Config, s: Layout, row: Row, fit: seq<nat>, ln: nat, c: nat, x: U16)
    requires |row| == |fit| && RowChunked(row) && !s.pen.literal
    ensures var b := CellsOn(Whole(cfg), s, row, fit, ln, c, x);
      multiset(Inked(b.log)) == multiset(Inked(s.log)) + LineWords(row, fit, ln, c) && !b.pen.literal
    decreases |row| - c
  {
    hide Inked, EmitRun, Slice, SliceWords;
    if c < |row| {
      var t := Slice(row[c], fit[c], ln);
      CellWords(cfg, s, x, row[c], fit[c], ln);
      CellsWords(cfg, if t == [] then s else EmitRun(Whole(cfg), AtColumn(s, x), t, false), row, fit, ln, c + 1, Wrap16(x + (fit[c] + GAP) * 6));
    }
  }

  lemma {:induction false} GuttersWords(cfg: Config, s: Layout, fit: seq<nat>, c: nat, x: U16)
    ensures var b := Gutters(Whole(cfg), s, fit, c, x); Inked(b.log) == Inked(s.log) && b.pen == s.pen
    decreases |fit| - c
  {
    hide Inked;
    if c + 1 < |fit| {
      var x': U16 := Wrap16(x + (fit[c] + GAP) * 6);
      var shape := Fill(Wrap16(x' - 4), 1, LineHeight(Whole(cfg)), true);
      InkedSnoc(s.log, Draw(s.pen.y, RowHeight(Whole(cfg), s), shape));
      assert Inked(s.log) + [] == Inked(s.log);
      GuttersWords(cfg, PutAnyway(Whole(cfg), s, shape), fit, c + 1, x');
    }
  }

  lemma TableLineWords(cfg: Config, s: Layout, row: Row, fit: seq<nat>, ln: nat)
    requires |row| == |fit| && RowChunked(row) && !s.pen.literal
    ensures var b := TableLine(Whole(cfg), s, row, fit, ln);
      multiset(Inked(b.log)) == multiset(Inked(s.log)) + LineWords(row, fit, ln, 0) && !b.pen.literal
  {
    hide Inked, CellsOn, Gutters, LineWords;
    CellsWords(cfg, s, row, fit, ln, 0, Indent(s));
    GuttersWords(cfg, CellsOn(Whole(cfg), s, row, fit, ln, 0, Indent(s)), fit, 0, Indent(s));
  }

  lemma {:induction false} TableLinesWords(cfg: Config, s: Layout, row: Row, fit: seq<nat>, ln: nat, lines: nat)
    requires |row| == |fit| && RowChunked(row) && !s.pen.literal && ln <= lines
    ensures var b := TableLines(Whole(cfg), s, row, fit, ln, lines);
      multiset(Inked(b.log)) == multiset(Inked(s.log)) + RowSays(row, fit, ln, lines, 0) && !b.pen.literal
    decreases lines - ln
  {
    hide Inked, TableLine, LineWords, RowSays;
    if ln < lines {
      TableLineWords(cfg, s, row, fit, ln);
      TableLinesWords(cfg, TableLine(Whole(cfg), s, row, fit, ln), row, fit, ln + 1, lines);
      LineByLine(row, fit, ln, lines, 0);
    } else {
      NoLines(row, fit, ln, 0);
    }
  }

  // ---- Tables ---------------------------------------------------------

  /** The cap of thirty-two lines is reached nowhere in the row. */
  predicate Uncapped(row: Row, fit: seq<nat>)
    requires |row| == |fit|
  {
    forall c :: 0 <= c < |row| ==> fit[c] > 0 && Lines(row[c], 0, fit[c]) <= 32
  }

  function CellsSay(row: Row, c: nat): Words
    decreases |row| - c
  {
    if c < |row| then multiset(Codepoints(row[c], 0, |row[c]|)) + CellsSay(row, c + 1) else multiset{}
  }

  function RowsSay(rows: seq<Row>, r: nat): Words
    decreases |rows| - r
  {
    if r < |rows| then CellsSay(rows[r], 0) + RowsSay(rows, r + 1) else multiset{}
  }

  lemma {:induction false} EnoughLines(row: Row, fit: seq<nat>, c: nat, n: nat)
    requires c < n <= |row| == |fit| && Uncapped(row, fit)
    ensures Lines(row[c], 0, fit[c]) <= RowLines(row, fit, n)
    decreases n
  {
    hide Lines;
    if row[c] == [] {
      NothingTakesNone(fit[c]);
    }
    if c < n - 1 {
      EnoughLines(row, fit, c, n - 1);
    }
  }

  lemma NothingTakesNone(w: nat)
    requires w > 0
    ensures Lines([], 0, w) == 0
  {
  }

  lemma {:induction false} AllCellsSaid(row: Row, fit: seq<nat>, lines: nat, c: nat)
    requires |row| == |fit| && RowChunked(row) && Uncapped(row, fit)
    requires forall k :: 0 <= k < |row| ==> Lines(row[k], 0, fit[k]) <= lines
    ensures RowSays(row, fit, 0, lines, c) == CellsSay(row, c)
    decreases |row| - c
  {
    hide Lines, LinesSay, Codepoints;
    if c < |row| {
      LinesSayAll(row[c], fit[c], 0, lines);
      assert LineStart(row[c], fit[c], 0) == 0;
      AllCellsSaid(row, fit, lines, c + 1);
    }
  }

  lemma TableRowWords(cfg: Config, s: Layout, row: Row, fit: seq<nat>, header: bool)
    requires |row| == |fit| && RowChunked(row) && !s.pen.literal && Uncapped(row, fit)
    ensures var b := TableRow(Whole(cfg), s, row, fit, header);
      multiset(Inked(b.log)) == multiset(Inked(s.log)) + CellsSay(row, 0) && !b.pen.literal
  {
    hide Inked, TableLines, RowSays, CellsSay, Lines, Put;
    var g, n := Whole(cfg), RowLines(row, fit, |row|);
    forall k | 0 <= k < |row|
      ensures Lines(row[k], 0, fit[k]) <= n
    {
      EnoughLines(row, fit, k, |row|);
    }
    AllCellsSaid(row, fit, n, 0);
    TableLinesWords(cfg, s, row, fit, 0, n);
    var a := TableLines(g, s, row, fit, 0, n);
    PutInks(cfg, a, header, Rule(Indent(a), -1, RIGHT - Indent(a), true));
    PutPens(cfg, a, Rule(Indent(a), -1, RIGHT - Indent(a), true));
  }

  lemma PutPens(cfg: Config, s: Layout, shape: Shape)
    ensures Put(Whole(cfg), s, shape).pen == s.pen
  {
  }

  lemma {:induction false} TableRowsWords(cfg: Config, s: Layout, rows: seq<Row>, fit: seq<nat>, r: nat)
    requires TableShape(rows, fit) && !s.pen.literal && forall k :: 0 <= k < |rows| ==> Uncapped(rows[k], fit)
    ensures multiset(Inked(TableRows(Whole(cfg), s, rows, fit, r).log)) == multiset(Inked(s.log)) + RowsSay(rows, r)
    decreases |rows| - r
  {
    hide Inked, TableRow, CellsSay, Uncapped;
    if r < |rows| {
      TableRowWords(cfg, s, rows[r], fit, r == 0);
      TableRowsWords(cfg, TableRow(Whole(cfg), s, rows[r], fit, r == 0), rows, fit, r + 1);
    }
  }

  /** However its cells are cut into lines and its lines wrapped, a table draws every character of every cell once and
      nothing else, blanks aside, when no cell needs more than thirty-two lines. */
  lemma TableLosesNothing(cfg: Config, s: Layout, rows: seq<Row>, widths: seq<nat>)
    requires TableShape(rows, widths) && rows != [] && widths != [] && !s.pen.literal
    requires forall k :: 0 <= k < |rows| ==> Uncapped(rows[k], Fitted(widths, TableAvail(s)))
    ensures multiset(Inked(TableFlush(Whole(cfg), s, rows, widths).log)) == multiset(Inked(s.log)) + RowsSay(rows, 0)
  {
    var fit := Fitted(widths, TableAvail(s));
    hide Inked, TableRows, Uncapped, Fitted, Put, RowsSay, RowChunked, TableFlush;
    FlushIs(Whole(cfg), s, rows, widths);
    TableRowsWords(cfg, s, rows, fit, 0);
    var a := TableRows(Whole(cfg), s, rows, fit, 0);
    PutInks(cfg, a, true, Rule(Indent(a), 0, RIGHT - Indent(a), true));
  }

  lemma FlushIs(g: Page, s: Layout, rows: seq<Row>, widths: seq<nat>)
    requires TableShape(rows, widths) && rows != [] && widths != []
    ensures var a := TableRows(g, s, rows, Fitted(widths, TableAvail(s)), 0);
      TableFlush(g, s, rows, widths).log == Put(g, a, Rule(Indent(a), 0, RIGHT - Indent(a), true)).log
  {
    hide TableRows, Fitted, Put;
  }
}
