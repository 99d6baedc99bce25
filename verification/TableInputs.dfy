// A table whose cell needs more lines than the cap leaves it.
module TableInputs {
  import opened Geometry
  import opened Utf8
  import opened Chunks
  import opened CellWalk
  import opened TableFit
  import opened Arith
  import opened SourceLines
  import opened LayoutTypes
  import opened LayoutSpec
  import opened LayoutWalk
  import opened LayoutTables
  import opened LayoutColumns
  import opened LayoutScroll
  import opened CellText
  import opened TableCollect
  import LayoutInputs

  // ---- A cell of n words ----------------------------------------------

  /** n words of five letters, a space between each two. */
  function Words(n: nat): seq<bv8>
    requires n > 0
  {
    seq(6 * n - 1, i => if i % 6 == 5 then SPACE else 0x61)
  }

  lemma WordsAt(n: nat, i: nat)
    requires n > 0 && i < 6 * n - 1
    ensures Words(n)[i] == (if i % 6 == 5 then SPACE else 0x61) && SeqLen(Words(n)[i]) == 1
  {
  }

  lemma {:induction false} WordsTake(n: nat, e: nat, w: nat)
    requires n > 0 && e <= 6 * n - 1
    ensures TakeEnd(Words(n), e, w) == Min(e + w, 6 * n - 1)
    decreases w
  {
    hide Words;
    WordsSize(n);
    if e < 6 * n - 1 && w > 0 {
      WordsAt(n, e);
      WordsTake(n, e + 1, w - 1);
    }
  }

  lemma WordsSize(n: nat)
    requires n > 0
    ensures |Words(n)| == 6 * n - 1
  {
  }

  // Eight columns hold a word and a bit of the next, and break after the space.
  lemma WordsBreak(n: nat, k: nat)
    requires k < n
    ensures NextLine(Words(n), 6 * k, 8) == if k + 1 < n then 6 * (k + 1) else 6 * n - 1
  {
    hide Words;
    var p := Words(n);
    WordsSize(n);
    WordsTake(n, 6 * k, 8);
    if k + 1 < n {
      WordsAt(n, 6 * k + 8);
      WordsAt(n, 6 * k + 7);
      WordsAt(n, 6 * k + 6);
      WordsAt(n, 6 * k + 5);
      assert BackToSpace(p, 6 * k, 6 * k + 6) == 6 * k + 6;
      assert BackToSpace(p, 6 * k, 6 * k + 7) == 6 * k + 6;
      assert BackToSpace(p, 6 * k, 6 * k + 8) == 6 * k + 6;
      assert BreakAt(p, 6 * k, 8) == 6 * k + 6;
    }
  }

  lemma {:induction false} WordsLines(n: nat, k: nat)
    requires k < n
    ensures Lines(Words(n), 6 * k, 8) == n - k
    decreases n - k
  {
    hide Words;
    WordsSize(n);
    WordsBreak(n, k);
    if k + 1 < n {
      WordsLines(n, k + 1);
    } else {
      assert Lines(Words(n), 6 * n - 1, 8) == 0;
    }
  }

  lemma {:induction false} WordsChunked(n: nat, k: nat)
    requires n > 0 && k <= 6 * n - 1
    ensures Chunked(Words(n), k)
    decreases 6 * n - k
  {
    hide Words;
    WordsSize(n);
    if k < 6 * n - 1 {
      WordsAt(n, k);
      WordsChunked(n, k + 1);
    }
  }

  // ---- The table ------------------------------------------------------

  /** Forty-two words between five cells wide enough to leave their column eight cells. */
  function LongRow(): (row: Row)
    ensures |row| == 6
  {
    [Letters(29), Words(42), Letters(29), Letters(29), Letters(29), Letters(29)]
  }

  lemma LettersPlain()
    ensures PlainCell(Letters(29)) && Chunked(Letters(29), 0) && |Letters(29)| == 29
  {
    LettersFrom(29, 0, 0);
  }

  lemma WordsPlain()
    ensures PlainCell(Words(42)) && Chunked(Words(42), 0) && |Words(42)| == 251
  {
    WordsChunked(42, 0);
    WordsAt(42, 0);
    WordsAt(42, 250);
  }

  lemma LongRowPlain()
    ensures PlainRow(LongRow()) && Bytes(LongRow()) == 396 && RowChunked(LongRow())
  {
    hide Letters, Words, PlainCell, Chunked;
    LettersPlain();
    WordsPlain();
    FirstLetter();
    BytesSix(LongRow());
  }

  lemma FirstLetter()
    ensures Letters(29)[0] == 0x61
  {
  }

  lemma BytesSix(row: Row)
    requires |row| == 6
    ensures Bytes(row) == |row[0]| + |row[1]| + |row[2]| + |row[3]| + |row[4]| + |row[5]|
  {
    BytesStep(row, 5);
    BytesStep(row, 4);
    BytesStep(row, 3);
    BytesStep(row, 2);
    BytesStep(row, 1);
    BytesStep(row, 0);
    assert row[6..] == [] && row[0..] == row;
  }

  lemma BytesStep(row: Row, k: nat)
    requires k < |row|
    ensures Bytes(row[k..]) == |row[k]| + Bytes(row[k + 1..])
  {
    assert row[k..][1..] == row[k + 1..];
  }

  // Five of the columns share what the sixth wants.
  lemma EightCells(ws: seq<nat>)
    requires |ws| == 6 && forall k :: 0 <= k < 6 ==> ws[k] >= 29
    ensures Fitted(ws, 58) == [12, 8, 8, 8, 8, 8]
  {
    var capped := Capped(ws, 29);
    assert capped == [29, 29, 29, 29, 29, 29];
    SumSix(29, 29, 29, 29, 29, 29);
    var scaled := Scaled(capped, 52, 174);
    assert scaled == [8, 8, 8, 8, 8, 8];
    SumSix(8, 8, 8, 8, 8, 8);
    WidestFirst();
    assert Topped(scaled, 52) == [12, 8, 8, 8, 8, 8];
  }

  lemma WidestFirst()
    ensures Widest([8, 8, 8, 8, 8, 8], 6) == 0
  {
  }

  lemma MostLines(row: Row, fit: seq<nat>)
    requires |row| == |fit| == 6 && row[1] != [] && fit[1] > 0 && CappedLines(row[1], fit[1]) == MAX_LINES
    ensures RowLines(row, fit, 6) == MAX_LINES
  {
    LinesInRange(row, fit, 6);
    assert RowLines(row, fit, 2) >= MAX_LINES;
    assert RowLines(row, fit, 3) >= MAX_LINES;
    assert RowLines(row, fit, 4) >= MAX_LINES;
    assert RowLines(row, fit, 5) >= MAX_LINES;
  }

  function LongWidths(): (ws: seq<nat>)
    ensures |ws| == 6
  {
    [29, 251, 29, 29, 29, 29]
  }

  /** Read from one line of source, the row is stored as it stands. */
  lemma LongRowIsStored(style: Style)
    ensures SixWide(Collect([Joined(LongRow(), BAR)]))
    ensures TableOf(Collect([Joined(LongRow(), BAR)]), style) == Table([LongRow()], LongWidths(), style)
  {
    hide Joined, Letters, Words, LongRow, Collect, TableOf, PlainRow;
    LongRowPlain();
    OneRowTable(LongRow(), style);
    LongRowCells();
    assert LongWidths() == seq(6, k requires 0 <= k < 6 => Cells(LongRow()[k]));
  }

  lemma LongRowCells()
    ensures forall k :: 0 <= k < 6 ==> Cells(LongRow()[k]) == LongWidths()[k]
  {
    hide Letters, Words;
    LettersFrom29();
    WordsCells();
  }

  /** Laid out at depth four, its second column is eight cells wide and the cell in it needs forty-two lines;
      the row is given thirty-two, in every frame, and what is left of the cell after those is in none. */
  lemma LongCellLosesText(cfg: Config, scroll: U16, style: Style)
    requires style.depth == 4 && cfg.leading <= 255
    ensures var cb := Table([LongRow()], LongWidths(), style);
      WellFormed(cb) && Run(In(cfg, scroll), Fresh(), [cb]).pen.y == 32 * (13 + cfg.leading) + 4
    ensures Fitted(LongWidths(), 58)[1] == 8 && Lines(LongRow()[1], 0, 8) == 42
    ensures LineStart(LongRow()[1], 8, 32) < |LongRow()[1]|
  {
    hide Letters, Words, LongRow, WellFormed, RowLines, Fitted, LineStart, Lines, TableFlush, Chunked, LongWidths;
    LongRowPlain();
    var cb := Table([LongRow()], LongWidths(), style);
    LongRowTable(cb);
    EightCells(cb.widths);
    LongWords();
    LongTableRuns(cfg, scroll, cb);
  }

  lemma LongWords()
    ensures LongRow()[1] != [] && Lines(LongRow()[1], 0, 8) == 42 && Chunked(LongRow()[1], 0) && LineStart(LongRow()[1], 8, 32) < |LongRow()[1]|
  {
    hide Words, LineStart, Lines, Letters, Chunked;
    WordsLines(42, 0);
    WordsPlain();
    CapLosesNothingIff(Words(42), 8);
    LineStartChunked(Words(42), 8, 32);
    assert CappedLines(Words(42), 8) == 32;
    StartInside(Words(42), 8, 32);
  }

  lemma StartInside(p: seq<bv8>, w: nat, ln: nat)
    requires w > 0 && Chunked(p, 0)
    ensures LineStart(p, w, ln) <= |p|
  {
    LineStartChunked(p, w, ln);
  }

  lemma LongRowTable(cb: Callback)
    requires cb.Table? && RowChunked(LongRow()) && cb.rows == [LongRow()] && cb.widths == LongWidths()
    ensures WellFormed(cb) && |cb.widths| == 6 && forall k :: 0 <= k < 6 ==> cb.widths[k] >= 29
  {
    hide LongRow, Chunked;
    LongRowCells();
    forall k | 0 <= k < 6
      ensures cb.widths[k] == WidestCell(cb.rows, k, 1)
    {
      assert WidestCell(cb.rows, k, 0) == 0;
    }
  }

  lemma LettersFrom29()
    ensures Cells(Letters(29)) == 29
  {
    LettersFrom(29, 0, 0);
  }

  lemma {:induction false} WordsCellsFrom(n: nat, k: nat)
    requires n > 0 && k <= 6 * n - 1
    ensures CellsFrom(Words(n), k) == 6 * n - 1 - k
    decreases 6 * n - k
  {
    hide Words;
    WordsSize(n);
    if k < 6 * n - 1 {
      WordsAt(n, k);
      WordsCellsFrom(n, k + 1);
    }
  }

  lemma WordsCells()
    ensures Cells(Words(42)) == 251
  {
    WordsCellsFrom(42, 0);
  }

  lemma LongTableRuns(cfg: Config, scroll: U16, cb: Callback)
    requires cfg.leading <= 255 && cb.Table? && cb.style.depth == 4 && WellFormed(cb) && cb.rows == [LongRow()] && |cb.widths| == 6
    requires Fitted(cb.widths, 58) == [12, 8, 8, 8, 8, 8] && Lines(LongRow()[1], 0, 8) == 42
    ensures Run(In(cfg, scroll), Fresh(), [cb]).pen.y == 32 * (13 + cfg.leading) + 4
  {
    hide TableFlush, Fitted, LongRow, Lines, RowLines, TableSafe, LinesY, RowsY;
    var s := Deepened(Fresh(), 4);
    LayoutInputs.RunOne(In(cfg, scroll), Fresh(), cb);
    AvailExact(s);
    assert TableAvail(s) == 58 && TableAvail(Layout(s.pen, [])) == 58;
    LongFits(cb.widths);
    BodyWidthsHold(s.pen, cb.widths);
    HeldWidthsAreSafe(s.pen, cb.rows, cb.widths);
    SafeAlike(In(cfg, scroll), s, cb.rows, cb.widths);
    SafeAlike(In(cfg, PAST), s, cb.rows, cb.widths);
    FlushWalks(In(cfg, PAST), s, cb.rows, cb.widths);
    OneRowY(In(cfg, PAST), s.pen, LongRow(), [12, 8, 8, 8, 8, 8], 0);
    LongLines();
    LinesBeyond(cfg, s.pen, LongRow(), [12, 8, 8, 8, 8, 8], 0, 32, 0);
  }

  lemma LongLines()
    ensures RowLines(LongRow(), [12, 8, 8, 8, 8, 8], 6) == 32
  {
    hide LongRow, Lines, LineStart, RowLines, Chunked;
    LongWords();
    MostLines(LongRow(), [12, 8, 8, 8, 8, 8]);
  }

  lemma LongFits(ws: seq<nat>)
    requires |ws| == 6 && Fitted(ws, 58) == [12, 8, 8, 8, 8, 8]
    ensures ColumnsFit(ws, 58)
  {
    SumSix(12, 8, 8, 8, 8, 8);
  }
}
