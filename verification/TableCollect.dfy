// Collecting a table's rows until it closes, and which of them come out as whole characters.
module TableCollect {
  import opened Utf8
  import opened Chunks
  import opened TableFit
  import opened SourceLines
  import opened LayoutTypes
  import opened LayoutSpec
  import opened CellText

  const T_BYTES := 1024
  const DASH: bv8 := 0x2D
  const COLON: bv8 := 0x3A

  // ---- Splitting a row ------------------------------------------------

  predicate Drops(b: bv8, bars: bool) {
    Blankish(b) || (bars && b == BAR)
  }

  function TrimFrom(t: seq<bv8>, i: nat, bars: bool): (r: nat)
    requires i <= |t|
    ensures i <= r <= |t|
    decreases |t| - i
  {
    if i < |t| && Drops(t[i], bars) then TrimFrom(t, i + 1, bars) else i
  }

  function TrimTo(t: seq<bv8>, i: nat, e: nat, bars: bool): (r: nat)
    requires i <= e <= |t|
    ensures i <= r <= e
    decreases e
  {
    if i < e && Drops(t[e - 1], bars) then TrimTo(t, i, e - 1, bars) else e
  }

  /** Without the blanks at its ends, and the bars. */
  function Trimmed(t: seq<bv8>, bars: bool): seq<bv8> {
    t[TrimFrom(t, 0, bars)..TrimTo(t, TrimFrom(t, 0, bars), |t|, bars)]
  }

  /** A row of dashes and colons carries alignment and no content. */
  predicate Separator(t: seq<bv8>) {
    t != [] && forall i :: 0 <= i < |t| ==> t[i] == DASH || t[i] == COLON || t[i] == BAR || Blankish(t[i])
  }

  function Parts(t: seq<bv8>, i: nat): seq<seq<bv8>>
    requires i <= |t|
  {
    PiecesFrom(t, i, BAR)
  }

  // ---- Collecting -----------------------------------------------------

  /** Six cells a row, the widest cell of each column so far, the columns in use, the buffer's bytes in use,
      and whether anything was dropped. */
  datatype Collected = Collected(rows: seq<seq<seq<bv8>>>, widths: seq<nat>, cols: nat, used: nat, overflowed: bool)

  function EmptyTable(): Collected {
    Collected([], [0, 0, 0, 0, 0, 0], 0, 0, false)
  }

  predicate Sized(c: Collected) {
    |c.widths| == T_COLS && c.cols <= T_COLS && c.used <= T_BYTES && |c.rows| <= T_ROWS
  }

  function CellSays(part: seq<bv8>): seq<bv8> {
    Stripped(Trimmed(part, false))
  }

  /** One more cell of the row being filled, the col-th. */
  function AddCell(c: Collected, col: nat, part: seq<bv8>): (r: Collected)
    requires Sized(c) && col < T_COLS
    ensures Sized(r) && r.rows == c.rows && r.cols == c.cols
  {
    var room := T_BYTES - c.used;
    var cell := Stored(Trimmed(part, false), room);
    c.(used := c.used + |cell|, widths := c.widths[col := Max(c.widths[col], Cells(cell))],
       overflowed := c.overflowed || (room < MAX_CELL && room < |CellSays(part)|))
  }

  function Padded(row: seq<seq<bv8>>): (r: seq<seq<bv8>>)
    requires |row| <= T_COLS
    ensures |r| == T_COLS
  {
    row + seq(T_COLS - |row|, _ => [])
  }

  function AddCells(c: Collected, row: seq<seq<bv8>>, parts: seq<seq<bv8>>): (r: Collected)
    requires Sized(c) && |row| <= T_COLS && |c.rows| < T_ROWS
    ensures Sized(r)
    decreases |parts|
  {
    if parts == [] || |row| == T_COLS then c.(rows := c.rows + [Padded(row)], cols := Max(c.cols, |row|))
    else AddCells(AddCell(c, |row|, parts[0]), row + [Stored(Trimmed(parts[0], false), T_BYTES - c.used)], parts[1..])
  }

  function AddRow(c: Collected, line: seq<bv8>): (r: Collected)
    requires Sized(c)
    ensures Sized(r)
  {
    var t := Trimmed(line, true);
    if Separator(t) then c
    else if |c.rows| >= T_ROWS then c.(overflowed := true)
    else AddCells(c, [], Parts(t, 0))
  }

  function Collect(lines: seq<seq<bv8>>): (c: Collected)
    ensures Sized(c)
    decreases |lines|
  {
    if lines == [] then EmptyTable() else AddRow(Collect(lines[..|lines| - 1]), lines[|lines| - 1])
  }

  /** The table as it is laid out when it closes: the columns in use, row by row, and their natural widths. */
  function TableOf(c: Collected, style: Style): Callback
    requires Sized(c) && forall r :: 0 <= r < |c.rows| ==> |c.rows[r]| == T_COLS
  {
    Table(seq(|c.rows|, r requires 0 <= r < |c.rows| => c.rows[r][..c.cols]), c.widths[..c.cols], style)
  }

  lemma PartAt(t: seq<bv8>, i: nat, e: nat)
    requires i <= e <= |t| && (forall j :: i <= j < e ==> t[j] != BAR) && (e < |t| ==> t[e] == BAR)
    ensures Parts(t, i) == [t[i..e]] + if e < |t| then Parts(t, e + 1) else []
  {
    FoundAt(t, i, BAR, e);
  }

  lemma AddedCell(c: Collected, row: seq<seq<bv8>>, part: seq<bv8>, parts: seq<seq<bv8>>)
    requires Sized(c) && |row| < T_COLS && |c.rows| < T_ROWS
    ensures AddCells(c, row, [part] + parts) == AddCells(AddCell(c, |row|, part), row + [Stored(Trimmed(part, false), T_BYTES - c.used)], parts)
  {
    assert ([part] + parts)[1..] == parts;
  }

  lemma RowIsFull(c: Collected, row: seq<seq<bv8>>, parts: seq<seq<bv8>>)
    requires Sized(c) && |row| <= T_COLS && |c.rows| < T_ROWS && (parts == [] || |row| == T_COLS)
    ensures AddCells(c, row, parts) == AddCells(c, row, [])
  {
  }

  method Trim(t: seq<bv8>, bars: bool) returns (r: seq<bv8>)
    ensures r == Trimmed(t, bars)
  {
    var a := 0;
    while a < |t| && (Blankish(t[a]) || (bars && t[a] == BAR))
      invariant 0 <= a <= |t| && TrimFrom(t, a, bars) == TrimFrom(t, 0, bars)
    {
      a := a + 1;
    }
    var b := |t|;
    while b > a && (Blankish(t[b - 1]) || (bars && t[b - 1] == BAR))
      invariant a <= b <= |t| && TrimTo(t, a, b, bars) == TrimTo(t, a, |t|, bars)
    {
      b := b - 1;
    }
    r := t[a..b];
  }

  method IsSeparator(t: seq<bv8>) returns (sep: bool)
    ensures sep == Separator(t)
  {
    sep := t != [];
    var i := 0;
    while i < |t| && sep
      invariant 0 <= i <= |t| && (sep ==> t != [] && forall k :: 0 <= k < i ==> t[k] == DASH || t[k] == COLON || t[k] == BAR || Blankish(t[k]))
      invariant !sep ==> !Separator(t)
    {
      if t[i] != DASH && t[i] != COLON && t[i] != BAR && !Blankish(t[i]) {
        sep := false;
      }
      i := i + 1;
    }
  }

  method CountCells(tbuf: array<bv8>, off: nat, n: nat) returns (w: nat)
    requires off + n <= tbuf.Length
    ensures w == Cells(tbuf[off..off + n])
  {
    ghost var t := tbuf[off..off + n];
    w := 0;
    var i := 0;
    while i < n
      invariant w + CellsFrom(t, i) == Cells(t)
    {
      assert t[i] == tbuf[off + i];
      i := i + SeqLen(tbuf[off + i]);
      w := w + 1;
    }
  }

  // ---- What is collected is a table -----------------------------------

  predicate SixWide(c: Collected) {
    forall r :: 0 <= r < |c.rows| ==> |c.rows[r]| == T_COLS
  }

  /** Every width is that of its column's widest cell. */
  predicate Sound(c: Collected) {
    Sized(c) && SixWide(c) && forall k :: 0 <= k < T_COLS ==> c.widths[k] == WidestCell(c.rows, k, |c.rows|)
  }

  // A row is being filled.
  predicate SoundWith(c: Collected, row: seq<seq<bv8>>) {
    && Sized(c) && SixWide(c) && |row| <= T_COLS
    && forall k :: 0 <= k < T_COLS ==> c.widths[k] == Max(WidestCell(c.rows, k, |c.rows|), if k < |row| then Cells(row[k]) else 0)
  }

  lemma {:induction false} WidestOf(rows: seq<seq<seq<bv8>>>, more: seq<seq<seq<bv8>>>, c: nat, n: nat)
    requires n <= |rows| <= |more| && more[..|rows|] == rows
    requires (forall k :: 0 <= k < |rows| ==> c < |rows[k]|) && (forall k :: 0 <= k < |more| ==> c < |more[k]|)
    ensures WidestCell(more, c, n) == WidestCell(rows, c, n)
    decreases n
  {
    if n > 0 {
      WidestOf(rows, more, c, n - 1);
      assert more[..|rows|][n - 1] == more[n - 1];
    }
  }

  lemma RowEnds(c: Collected, row: seq<seq<bv8>>)
    requires SoundWith(c, row) && |c.rows| < T_ROWS
    ensures Sound(c.(rows := c.rows + [Padded(row)], cols := Max(c.cols, |row|)))
  {
    var rows := c.rows + [Padded(row)];
    assert Cells([]) == 0;
    forall k | 0 <= k < T_COLS
      ensures c.widths[k] == WidestCell(rows, k, |rows|)
    {
      WidestOf(c.rows, rows, k, |c.rows|);
    }
  }

  lemma {:induction false} CellsSound(c: Collected, row: seq<seq<bv8>>, parts: seq<seq<bv8>>)
    requires SoundWith(c, row) && |c.rows| < T_ROWS
    ensures Sound(AddCells(c, row, parts))
    decreases |parts|
  {
    if parts == [] || |row| == T_COLS {
      RowEnds(c, row);
    } else {
      hide Stored, CellSays, Trimmed, WidestCell;
      CellsSound(AddCell(c, |row|, parts[0]), row + [Stored(Trimmed(parts[0], false), T_BYTES - c.used)], parts[1..]);
    }
  }

  lemma {:induction false} CollectSound(lines: seq<seq<bv8>>)
    ensures Sound(Collect(lines))
    decreases |lines|
  {
    if lines != [] {
      var c := Collect(lines[..|lines| - 1]);
      CollectSound(lines[..|lines| - 1]);
      hide AddCells, Parts, Trimmed, Separator, WidestCell;
      var t := Trimmed(lines[|lines| - 1], true);
      if !Separator(t) && |c.rows| < T_ROWS {
        CellsSound(c, [], Parts(t, 0));
      }
    }
  }

  lemma {:induction false} WidestCut(rows: seq<seq<seq<bv8>>>, cut: seq<Row>, cols: nat, c: nat, n: nat)
    requires n <= |rows| == |cut| && c < cols && (forall k :: 0 <= k < |rows| ==> cols <= |rows[k]|)
    requires forall k :: 0 <= k < |rows| ==> cut[k] == rows[k][..cols]
    ensures WidestCell(cut, c, n) == WidestCell(rows, c, n)
    decreases n
  {
    if n > 0 {
      WidestCut(rows, cut, cols, c, n - 1);
    }
  }

  // ---- Whole characters -----------------------------------------------

  predicate AllChunked(row: seq<seq<bv8>>) {
    forall k :: 0 <= k < |row| ==> Chunked(row[k], 0)
  }

  predicate RowsChunked(rows: seq<seq<seq<bv8>>>) {
    forall r :: 0 <= r < |rows| ==> AllChunked(rows[r])
  }

  /** The cut a cell suffers splits no character of what it says. */
  predicate CleanCut(part: seq<bv8>, room: nat) {
    !SplitAt(CellSays(part), Kept(CellSays(part), room))
  }

  predicate CleanParts(c: Collected, col: nat, parts: seq<seq<bv8>>)
    requires Sized(c)
    decreases |parts|
  {
    parts != [] && col < T_COLS ==>
      CleanCut(parts[0], T_BYTES - c.used) && CleanParts(AddCell(c, col, parts[0]), col + 1, parts[1..])
  }

  /** So for every cell of every row that is collected. */
  predicate CleanLines(lines: seq<seq<bv8>>)
    decreases |lines|
  {
    lines != [] ==>
      var c, t := Collect(lines[..|lines| - 1]), Trimmed(lines[|lines| - 1], true);
      CleanLines(lines[..|lines| - 1]) && (!Separator(t) && |c.rows| < T_ROWS ==> CleanParts(c, 0, Parts(t, 0)))
  }

  lemma {:induction false} TrimToStops(t: seq<bv8>, i: nat, e: nat, bars: bool)
    requires i <= e <= |t| && (e < |t| ==> !IsTail(t[e]))
    ensures TrimTo(t, i, e, bars) < |t| ==> !IsTail(t[TrimTo(t, i, e, bars)])
    decreases e
  {
    if i < e && Drops(t[e - 1], bars) {
      TrimToStops(t, i, e - 1, bars);
    }
  }

  lemma TrimmedIsComplete(t: seq<bv8>, bars: bool)
    requires Complete(t)
    ensures Complete(Trimmed(t, bars))
  {
    var a := TrimFrom(t, 0, bars);
    var e := TrimTo(t, a, |t|, bars);
    TrimToStops(t, a, |t|, bars);
    NoSplitBefore(t, e);
    CompleteTo(t, e);
    CompleteFrom(t[..e], a);
    assert t[..e][a..] == t[a..e];
  }

  lemma {:induction false} PartsAreComplete(t: seq<bv8>, i: nat)
    requires Complete(t) && i <= |t|
    ensures forall k :: 0 <= k < |Parts(t, i)| ==> Complete(Parts(t, i)[k])
    decreases |t| - i
  {
    hide Complete, PiecesFrom;
    var e := FindByte(t, i, BAR);
    FirstPiece(t, i, BAR);
    NoSplitBefore(t, e);
    CompleteTo(t, e);
    CompleteFrom(t[..e], i);
    assert t[..e][i..] == t[i..e];
    if e < |t| {
      PartsAreComplete(t, e + 1);
      var rest := Parts(t, e + 1);
      assert forall k :: 1 <= k < |[t[i..e]] + rest| ==> ([t[i..e]] + rest)[k] == rest[k - 1];
    }
  }

  lemma {:induction false} PartsChunkedIff(c: Collected, row: seq<seq<bv8>>, parts: seq<seq<bv8>>)
    requires Sized(c) && |row| <= T_COLS && |c.rows| < T_ROWS && (forall k :: 0 <= k < |parts| ==> Complete(parts[k]))
    ensures RowsChunked(AddCells(c, row, parts).rows) <==> RowsChunked(c.rows) && AllChunked(row) && CleanParts(c, |row|, parts)
    decreases |parts|
  {
    hide Complete, Stored, SplitAt, Trimmed, CellSays, Chunked, Kept;
    if parts == [] || |row| == T_COLS {
      LastRow(c.rows, row);
    } else {
      var cell := Stored(Trimmed(parts[0], false), T_BYTES - c.used);
      TrimmedIsComplete(parts[0], false);
      StoredIsChunkedIff(Trimmed(parts[0], false), T_BYTES - c.used);
      assert CellSays(parts[0]) == Stripped(Trimmed(parts[0], false)) by { SaysStripped(parts[0]); }
      PartsChunkedIff(AddCell(c, |row|, parts[0]), row + [cell], parts[1..]);
      OneMore(row, cell);
    }
  }

  lemma SaysStripped(part: seq<bv8>)
    ensures CellSays(part) == Stripped(Trimmed(part, false))
  {
  }

  lemma OneMore(row: seq<seq<bv8>>, cell: seq<bv8>)
    ensures AllChunked(row + [cell]) <==> AllChunked(row) && Chunked(cell, 0)
  {
    assert (row + [cell])[|row|] == cell;
    assert forall k :: 0 <= k < |row| ==> (row + [cell])[k] == row[k];
  }

  lemma LastRow(rows: seq<seq<seq<bv8>>>, row: seq<seq<bv8>>)
    requires |row| <= T_COLS
    ensures RowsChunked(rows + [Padded(row)]) <==> RowsChunked(rows) && AllChunked(row)
  {
    var p := Padded(row);
    assert (rows + [p])[|rows|] == p;
    assert forall r :: 0 <= r < |rows| ==> (rows + [p])[r] == rows[r];
    assert forall k :: 0 <= k < |row| ==> p[k] == row[k];
    assert Chunked([], 0);
  }

  /** On well-formed rows: every stored cell is chunked exactly when no cut splits a character. */
  lemma {:induction false} CollectChunkedIff(lines: seq<seq<bv8>>)
    requires forall i :: 0 <= i < |lines| ==> Complete(lines[i])
    ensures RowsChunked(Collect(lines).rows) <==> CleanLines(lines)
    decreases |lines|
  {
    hide Complete, RowsChunked, CleanParts, AddCells, Trimmed, Separator;
    if lines != [] {
      var c, t := Collect(lines[..|lines| - 1]), Trimmed(lines[|lines| - 1], true);
      CollectChunkedIff(lines[..|lines| - 1]);
      TrimmedIsComplete(lines[|lines| - 1], true);
      if !Separator(t) && |c.rows| < T_ROWS {
        PartsAreComplete(t, 0);
        PartsChunkedIff(c, [], Parts(t, 0));
        assert AllChunked([]);
      }
    } else {
      NoRowsChunked();
    }
  }

  lemma NoRowsChunked()
    ensures RowsChunked([])
  {
  }

  /** The columns out of use hold nothing. */
  predicate EmptyBeyond(c: Collected) {
    SixWide(c) && forall r, k :: 0 <= r < |c.rows| && c.cols <= k < T_COLS ==> c.rows[r][k] == []
  }

  lemma {:induction false} CellsEmptyBeyond(c: Collected, row: seq<seq<bv8>>, parts: seq<seq<bv8>>)
    requires Sized(c) && EmptyBeyond(c) && |row| <= T_COLS && |c.rows| < T_ROWS
    ensures EmptyBeyond(AddCells(c, row, parts))
    decreases |parts|
  {
    hide Stored, Trimmed, AddCell;
    if parts != [] && |row| < T_COLS {
      var next := AddCell(c, |row|, parts[0]);
      assert EmptyBeyond(next);
      CellsEmptyBeyond(next, row + [Stored(Trimmed(parts[0], false), T_BYTES - c.used)], parts[1..]);
    }
  }

  lemma {:induction false} CollectEmptyBeyond(lines: seq<seq<bv8>>)
    ensures EmptyBeyond(Collect(lines))
    decreases |lines|
  {
    if lines != [] {
      hide AddCells, Parts, Trimmed, Separator;
      var c, t := Collect(lines[..|lines| - 1]), Trimmed(lines[|lines| - 1], true);
      CollectEmptyBeyond(lines[..|lines| - 1]);
      if !Separator(t) && |c.rows| < T_ROWS {
        CellsEmptyBeyond(c, [], Parts(t, 0));
      }
    }
  }

  /** Whatever the rows, what is laid out is a table with its natural widths; and on well-formed rows it is one
      the layout can walk exactly when no cell is cut inside a character. */
  lemma TableIsWellFormedIff(lines: seq<seq<bv8>>, style: Style)
    requires forall i :: 0 <= i < |lines| ==> Complete(lines[i])
    ensures SixWide(Collect(lines))
    ensures WellFormed(TableOf(Collect(lines), style)) <==> CleanLines(lines)
  {
    hide Complete, Collect, CleanLines, Chunked, WellFormed, TableOf, RowsChunked, Sound;
    CollectSound(lines);
    CollectChunkedIff(lines);
    CollectEmptyBeyond(lines);
    SoundIsTableIff(Collect(lines), style);
  }

  lemma SoundIsTableIff(c: Collected, style: Style)
    requires Sound(c) && EmptyBeyond(c)
    ensures WellFormed(TableOf(c, style)) <==> RowsChunked(c.rows)
  {
    hide Chunked, WidestCell;
    var rows, widths := seq(|c.rows|, r requires 0 <= r < |c.rows| => c.rows[r][..c.cols]), c.widths[..c.cols];
    ColumnsChunked(c, rows);
    ShapeIff(rows, widths);
    if RowsChunked(rows) {
      forall k | 0 <= k < c.cols
        ensures widths[k] == WidestCell(rows, k, |rows|)
      {
        WidestCut(c.rows, rows, c.cols, k, |rows|);
      }
    }
  }

  lemma ShapeIff(rows: seq<Row>, widths: seq<nat>)
    requires |widths| <= T_COLS && |rows| <= T_ROWS && forall r :: 0 <= r < |rows| ==> |rows[r]| == |widths|
    ensures TableShape(rows, widths) <==> RowsChunked(rows)
  {
    hide Chunked;
    assert forall r :: 0 <= r < |rows| ==> AllChunked(rows[r]) == RowChunked(rows[r]);
  }

  lemma ColumnsChunked(c: Collected, rows: seq<Row>)
    requires Sized(c) && EmptyBeyond(c) && rows == seq(|c.rows|, r requires 0 <= r < |c.rows| => c.rows[r][..c.cols])
    ensures RowsChunked(rows) <==> RowsChunked(c.rows)
  {
    assert Chunked([], 0);
    hide Chunked;
    forall r | 0 <= r < |rows|
      ensures AllChunked(rows[r]) <==> AllChunked(c.rows[r])
    {
      assert forall k :: 0 <= k < c.cols ==> rows[r][k] == c.rows[r][k];
    }
  }

  // ---- Plain rows come back -------------------------------------------

  /** No bar and no command in it, no blank at its ends, short enough for a cell. */
  predicate PlainCell(t: seq<bv8>) {
    t != [] && 0x7C !in t && 0x60 !in t && !Blankish(t[0]) && !Blankish(t[|t| - 1]) && |t| <= 255
  }

  predicate PlainRow(row: seq<seq<bv8>>) {
    0 < |row| <= 6 && (forall k :: 0 <= k < |row| ==> PlainCell(row[k])) && row[0][0] != 0x2D && row[0][0] != 0x3A
  }

  function Bytes(row: seq<seq<bv8>>): nat {
    if row == [] then 0 else |row[0]| + Bytes(row[1..])
  }

  lemma {:induction false} PlainStripped(t: seq<bv8>)
    requires TICK !in t
    ensures Stripped(t) == t
    decreases |t|
  {
    if t != [] {
      PlainStripped(t[1..]);
    }
  }

  lemma PlainTrimmed(t: seq<bv8>, bars: bool)
    requires t != [] && !Drops(t[0], bars) && !Drops(t[|t| - 1], bars)
    ensures Trimmed(t, bars) == t
  {
    assert t[0..|t|] == t;
  }

  lemma PlainStored(t: seq<bv8>, room: nat)
    requires PlainCell(t) && |t| <= room
    ensures Stored(Trimmed(t, false), room) == t
  {
    PlainTrimmed(t, false);
    PlainStripped(t);
    assert t[..|t|] == t;
  }

  lemma {:induction false} JoinedEnds(row: seq<seq<bv8>>)
    requires row != [] && forall k :: 0 <= k < |row| ==> PlainCell(row[k])
    ensures row[0] != [] && row[|row| - 1] != []
    ensures var t := Joined(row, BAR); t != [] && t[0] == row[0][0] && t[|t| - 1] == row[|row| - 1][|row[|row| - 1]| - 1]
    decreases |row|
  {
    if |row| > 1 {
      JoinedEnds(row[1..]);
    }
  }

  lemma {:induction false} PartsStored(c: Collected, row: seq<seq<bv8>>, parts: seq<seq<bv8>>, cells: seq<seq<bv8>>)
    requires Sized(c) && |row| + |parts| <= T_COLS && |c.rows| < T_ROWS && |parts| == |cells|
    requires forall k :: 0 <= k < |parts| ==> PlainCell(cells[k]) && Trimmed(parts[k], false) == cells[k]
    requires c.used + Bytes(cells) <= T_BYTES
    ensures var r := AddCells(c, row, parts);
      r.rows == c.rows + [Padded(row + cells)] && r.cols == Max(c.cols, |row| + |parts|) && r.used == c.used + Bytes(cells)
    decreases |parts|
  {
    hide Stored, Trimmed, CellSays, PlainCell;
    if parts == [] || |row| == T_COLS {
      assert row + cells == row;
    } else {
      StoredPart(parts[0], cells[0], T_BYTES - c.used);
      PartsStored(AddCell(c, |row|, parts[0]), row + [cells[0]], parts[1..], cells[1..]);
      assert row + [cells[0]] + cells[1..] == row + cells;
    }
  }

  lemma StoredPart(part: seq<bv8>, cell: seq<bv8>, room: nat)
    requires PlainCell(cell) && |cell| <= room && Trimmed(part, false) == cell
    ensures Stored(Trimmed(part, false), room) == cell
  {
    hide Trimmed;
    PlainStripped(cell);
    assert cell[..|cell|] == cell;
  }

  lemma OwnParts(row: seq<seq<bv8>>)
    requires forall k :: 0 <= k < |row| ==> PlainCell(row[k])
    ensures forall k :: 0 <= k < |row| ==> Trimmed(row[k], false) == row[k]
  {
    forall k | 0 <= k < |row|
      ensures Trimmed(row[k], false) == row[k]
    {
      PlainTrimmed(row[k], false);
    }
  }

  /** Plain cells joined by bars and read as one more row come back as themselves, while there is room. */
  lemma PlainRowComesBack(c: Collected, row: seq<seq<bv8>>)
    requires Sized(c) && PlainRow(row) && |c.rows| < 16 && c.used + Bytes(row) <= 1024
    ensures var r := AddRow(c, Joined(row, 0x7C));
      r.rows == c.rows + [Padded(row)] && r.cols == Max(c.cols, |row|) && r.used == c.used + Bytes(row)
  {
    hide Joined, Trimmed, Separator, Parts, PlainRow;
    JoinedIsPlain(row);
    OwnParts(row);
    PartsStored(c, [], row, row);
    assert [] + row == row;
  }

  lemma {:induction false} FrontComesOff(front: seq<bv8>, t: seq<bv8>, i: nat, bars: bool)
    requires i <= |front| && (forall j :: 0 <= j < |front| ==> Drops(front[j], bars)) && t != [] && !Drops(t[0], bars)
    ensures TrimFrom(front + t, i, bars) == |front|
    decreases |front| - i
  {
    if i < |front| {
      FrontComesOff(front, t, i + 1, bars);
    }
  }

  lemma {:induction false} BackComesOff(t: seq<bv8>, i: nat, n: nat, bars: bool)
    requires i < n <= |t| && !Drops(t[n - 1], bars) && forall j :: n <= j < |t| ==> Drops(t[j], bars)
    ensures TrimTo(t, i, |t|, bars) == n
  {
    BackFrom(t, i, n, |t|, bars);
  }

  lemma {:induction false} BackFrom(t: seq<bv8>, i: nat, n: nat, e: nat, bars: bool)
    requires i < n <= e <= |t| && !Drops(t[n - 1], bars) && forall j :: n <= j < |t| ==> Drops(t[j], bars)
    ensures TrimTo(t, i, e, bars) == n
    decreases e
  {
    if n < e {
      BackFrom(t, i, n, e - 1, bars);
    }
  }

  /** Blanks, and bars where they are to go, come off both ends and nowhere else. */
  lemma EndsComeOff(front: seq<bv8>, t: seq<bv8>, back: seq<bv8>, bars: bool)
    requires t != [] && !Drops(t[0], bars) && !Drops(t[|t| - 1], bars)
    requires (forall j :: 0 <= j < |front| ==> Drops(front[j], bars)) && (forall j :: 0 <= j < |back| ==> Drops(back[j], bars))
    ensures Trimmed(front + t + back, bars) == t
  {
    var all, n := front + t + back, |front| + |t|;
    assert front + (t + back) == all;
    FrontComesOff(front, t + back, 0, bars);
    assert forall j :: n <= j < |all| ==> all[j] == back[j - n];
    assert all[n - 1] == t[|t| - 1];
    BackComesOff(all, |front|, n, bars);
    assert all[|front|..n] == t;
  }

  /** A row as it is usually written, bars at its ends and blanks around its cells, comes back the same. */
  lemma FramedRowComesBack(c: Collected, front: seq<bv8>, parts: seq<seq<bv8>>, back: seq<bv8>, row: seq<seq<bv8>>)
    requires Sized(c) && PlainRow(row) && |c.rows| < 16 && c.used + Bytes(row) <= 1024
    requires |parts| == |row| && forall k :: 0 <= k < |row| ==> 0x7C !in parts[k] && Trimmed(parts[k], false) == row[k]
    requires parts[0] != [] && parts[0][0] == row[0][0]
    requires parts[|parts| - 1] != [] && !Blankish(parts[|parts| - 1][|parts[|parts| - 1]| - 1])
    requires (forall j :: 0 <= j < |front| ==> Drops(front[j], true)) && (forall j :: 0 <= j < |back| ==> Drops(back[j], true))
    ensures var r := AddRow(c, front + Joined(parts, 0x7C) + back);
      r.rows == c.rows + [Padded(row)] && r.cols == Max(c.cols, |row|) && r.used == c.used + Bytes(row)
  {
    hide Joined, Trimmed, Parts, Separator, PlainRow, PlainCell, Drops;
    PlainRowIs(row);
    FramedTrims(front, parts, back, row[0]);
    PartsStored(c, [], parts, row);
    assert [] + row == row;
  }

  predicate AllPlain(row: seq<seq<bv8>>) {
    0 < |row| <= 6 && forall k :: 0 <= k < |row| ==> PlainCell(row[k])
  }

  lemma PlainRowIs(row: seq<seq<bv8>>)
    requires PlainRow(row)
    ensures AllPlain(row) && row[0][0] != DASH && row[0][0] != COLON
  {
  }

  lemma FramedTrims(front: seq<bv8>, parts: seq<seq<bv8>>, back: seq<bv8>, first: seq<bv8>)
    requires parts != [] && forall k :: 0 <= k < |parts| ==> 0x7C !in parts[k]
    requires PlainCell(first) && first[0] != 0x2D && first[0] != 0x3A && parts[0] != [] && parts[0][0] == first[0]
    requires parts[|parts| - 1] != [] && !Blankish(parts[|parts| - 1][|parts[|parts| - 1]| - 1])
    requires (forall j :: 0 <= j < |front| ==> Drops(front[j], true)) && (forall j :: 0 <= j < |back| ==> Drops(back[j], true))
    ensures var t := Joined(parts, 0x7C); Trimmed(front + t + back, true) == t && !Separator(t) && Parts(t, 0) == parts
  {
    hide Joined, Trimmed, PiecesFrom;
    var t := Joined(parts, 0x7C);
    FramedEnds(parts);
    assert first[0] in first && parts[|parts| - 1][|parts[|parts| - 1]| - 1] in parts[|parts| - 1];
    EndsComeOff(front, t, back, true);
    JoinThenSplit([], parts, BAR);
    assert [] + t == t;
  }

  lemma {:induction false} FramedEnds(parts: seq<seq<bv8>>)
    requires parts != [] && parts[0] != [] && parts[|parts| - 1] != []
    ensures var (t, last) := (Joined(parts, BAR), parts[|parts| - 1]); t != [] && t[0] == parts[0][0] && t[|t| - 1] == last[|last| - 1]
    decreases |parts|
  {
    if |parts| == 2 {
      assert parts[1..] == [parts[1]];
    } else if |parts| > 2 {
      EndsLast(parts[1..]);
    }
  }

  lemma {:induction false} EndsLast(parts: seq<seq<bv8>>)
    requires parts != [] && parts[|parts| - 1] != []
    ensures var (t, last) := (Joined(parts, BAR), parts[|parts| - 1]); t != [] && t[|t| - 1] == last[|last| - 1]
    decreases |parts|
  {
    if |parts| > 1 {
      EndsLast(parts[1..]);
    }
  }

  /** Whatever lines come: at most sixteen rows of six cells, in a kilobyte; the widths are those of the widest cells. */
  lemma CollectHolds(lines: seq<seq<bv8>>)
    ensures var c := Collect(lines);
      && |c.rows| <= 16 && c.cols <= 6 && |c.widths| == 6 && c.used <= 1024
      && (forall r :: 0 <= r < |c.rows| ==> |c.rows[r]| == 6)
      && (forall k :: 0 <= k < 6 ==> c.widths[k] == WidestCell(c.rows, k, |c.rows|))
  {
    CollectSound(lines);
  }

  /** A line of dashes, colons and bars adds no row and changes nothing else. */
  lemma SeparatorAddsNothing(c: Collected, line: seq<bv8>)
    requires Sized(c) && line != [] && (line[0] == 0x2D || line[0] == 0x3A) && (line[|line| - 1] == 0x2D || line[|line| - 1] == 0x3A)
    requires forall i :: 0 <= i < |line| ==> line[i] == 0x2D || line[i] == 0x3A || line[i] == 0x7C || line[i] == 0x20
    ensures AddRow(c, line) == c && AddRow(c, [0x7C] + line + [0x7C]) == c
  {
    hide Parts, AddCells;
    PlainTrimmed(line, true);
    EndsComeOff([0x7C], line, [0x7C], true);
  }

  /** Past sixteen rows a line is dropped, and that it was is remembered. */
  lemma SeventeenthRowIsDropped(c: Collected, line: seq<bv8>)
    requires Sized(c) && |c.rows| == 16 && !Separator(Trimmed(line, true))
    ensures AddRow(c, line) == c.(overflowed := true)
  {
  }

  lemma JoinedIsPlain(row: seq<seq<bv8>>)
    requires PlainRow(row)
    ensures var t := Joined(row, BAR); Trimmed(t, true) == t && !Separator(t) && Parts(t, 0) == row
    ensures 0 < |row| <= T_COLS && forall k :: 0 <= k < |row| ==> PlainCell(row[k])
  {
    hide Joined, Trimmed, Parts;
    var t := Joined(row, BAR);
    JoinedEnds(row);
    assert PlainCell(row[0]) && PlainCell(row[|row| - 1]);
    PlainTrimmed(t, true);
    SplitBack(row);
  }

  lemma SplitBack(row: seq<seq<bv8>>)
    requires row != [] && forall k :: 0 <= k < |row| ==> PlainCell(row[k])
    ensures Parts(Joined(row, BAR), 0) == row
  {
    hide Joined, PiecesFrom;
    JoinThenSplit([], row, BAR);
    assert [] + Joined(row, BAR) == Joined(row, BAR);
  }

  /** The table that one such row makes. */
  lemma OneRowTable(row: seq<seq<bv8>>, style: Style)
    requires PlainRow(row) && Bytes(row) <= T_BYTES
    ensures SixWide(Collect([Joined(row, BAR)]))
    ensures TableOf(Collect([Joined(row, BAR)]), style) == Table([row], seq(|row|, k requires 0 <= k < |row| => Cells(row[k])), style)
  {
    assert row != [];
    hide AddRow, Joined, PlainRow, Sized, WidestCell, Collect, Sound, TableOf;
    CollectSound([Joined(row, BAR)]);
    OneCollected(row);
    OneRowWidths(Collect([Joined(row, BAR)]), row, style);
  }

  lemma OneCollected(row: seq<seq<bv8>>)
    requires PlainRow(row) && Bytes(row) <= T_BYTES
    ensures |row| <= T_COLS && var c := Collect([Joined(row, BAR)]); c.rows == [Padded(row)] && c.cols == |row|
  {
    hide AddRow, Joined;
    var lines := [Joined(row, BAR)];
    assert lines[..0] == [] && Collect([]) == EmptyTable();
    PlainRowComesBack(EmptyTable(), row);
  }

  lemma OneRowWidths(c: Collected, row: seq<seq<bv8>>, style: Style)
    requires Sound(c) && |row| <= T_COLS && c.rows == [Padded(row)] && c.cols == |row|
    ensures TableOf(c, style) == Table([row], seq(|row|, k requires 0 <= k < |row| => Cells(row[k])), style)
  {
    var rows := seq(1, r requires 0 <= r < 1 => c.rows[r][..c.cols]);
    assert Padded(row)[..|row|] == row;
    var widths := seq(|row|, k requires 0 <= k < |row| => Cells(row[k]));
    forall k | 0 <= k < |row|
      ensures c.widths[..|row|][k] == widths[k]
    {
      assert WidestCell(c.rows, k, 0) == 0 && c.rows[0][k] == row[k];
    }
    assert c.widths[..c.cols] == widths;
    assert TableOf(c, style).rows == [row];
  }

  // ---- A cell cut inside a character ----------------------------------

  /** n characters of two bytes. */
  function Accents(n: nat): seq<bv8> {
    seq(2 * n, i => if i % 2 == 0 then 0xC3 else 0xA9)
  }

  /** A cell of 128 of them is well-formed text of 256 bytes; 255 are stored, and the last of those is a lead
      byte with nothing behind it. */
  lemma CutCellIsBroken(style: Style)
    ensures Complete(Accents(128)) && SixWide(Collect([Accents(128)]))
    ensures !WellFormed(TableOf(Collect([Accents(128)]), style)) && |Collect([Accents(128)]).rows| == 1
    ensures Collect([Accents(128)]).rows[0][0] == Accents(128)[..255]
  {
    hide Stripped, Trimmed, Separator, Parts, SplitAt, Accents, Complete, WellFormed, TableOf, Kept;
    var t := Accents(128);
    AccentsAreComplete(128);
    AccentsArePlain();
    var lines := [t];
    assert lines[..0] == [] && Collect([]) == EmptyTable();
    KeptFew(t);
    assert !CleanParts(EmptyTable(), 0, [t]);
    assert !CleanLines(lines);
    TableIsWellFormedIff(lines, style);
    AddedCell(EmptyTable(), [], t, []);
    assert [t] + [] == [t];
  }

  lemma KeptFew(t: seq<bv8>)
    requires |t| == 256
    ensures Kept(t, T_BYTES) == 255
  {
  }

  lemma AccentsArePlain()
    ensures var t := Accents(128);
      && |t| == 256 && Trimmed(t, true) == t && Trimmed(t, false) == t && Stripped(t) == t
      && Parts(t, 0) == [t] && !Separator(t) && SplitAt(t, 255)
  {
    hide Stripped, Trimmed, Parts, Accents, Separator, SplitAt;
    var t := Accents(128);
    AccentBytes();
    PlainTrimmed(t, true);
    PlainTrimmed(t, false);
    PlainStripped(t);
    WholePart(t);
    AccentsSplit(t);
  }

  lemma AccentBytes()
    ensures var t := Accents(128);
      |t| == 256 && BAR !in t && TICK !in t && t[0] == t[254] == 0xC3 && t[255] == 0xA9
      && !Drops(0xC3, true) && !Drops(0xA9, true) && !Drops(0xC3, false) && !Drops(0xA9, false)
  {
  }

  lemma AccentsSplit(t: seq<bv8>)
    requires |t| == 256 && t[0] == 0xC3 && t[254] == 0xC3
    ensures SplitAt(t, 255) && !Separator(t)
  {
    assert SeqLen(t[254]) == 2;
    assert !Separator(t) by {
      hide SeqLen;
      assert t[0] != DASH && t[0] != COLON && t[0] != BAR && !Blankish(t[0]);
    }
  }

  lemma WholePart(t: seq<bv8>)
    requires BAR !in t
    ensures Parts(t, 0) == [t]
  {
    FoundAt(t, 0, BAR, |t|);
    assert t[0..|t|] == t;
  }

  lemma AccentsAreComplete(n: nat)
    ensures Complete(Accents(n))
  {
    assert SeqLen(0xC3) == 2 && SeqLen(0xA9) == 1;
    var t := Accents(n);
    forall i | 0 <= i < |t| && SeqLen(t[i]) > 1
      ensures HasTails(t, i)
    {
      assert i % 2 == 0;
    }
  }
}
