// The renderer's table buffer: one block of text and, for every cell, where it starts and how long it is.
module TableBuffering {
  import opened Utf8
  import opened Chunks
  import opened TableFit
  import opened SourceLines
  import opened LayoutTypes
  import opened LayoutSpec
  import opened CellText
  import opened TableCollect

  /** The cells of row r lie in the text and say what `row` says. */
  ghost predicate RowSays(off: array2<nat>, len: array2<nat>, text: seq<bv8>, r: nat, row: seq<seq<bv8>>)
    requires r < off.Length0 == len.Length0 && off.Length1 == len.Length1 == T_COLS
    reads off, len
  {
    |row| == T_COLS && forall c :: 0 <= c < T_COLS ==> off[r, c] + len[r, c] <= |text| && text[off[r, c]..off[r, c] + len[r, c]] == row[c]
  }

  lemma SliceKeeps(text: seq<bv8>, more: seq<bv8>, a: nat, b: nat)
    requires a <= b <= |text|
    ensures (text + more)[a..b] == text[a..b]
  {
  }

  // More text behind it changes no row.
  lemma TextGrows(off: array2<nat>, len: array2<nat>, text: seq<bv8>, more: seq<bv8>, r: nat, row: seq<seq<bv8>>)
    requires r < off.Length0 == len.Length0 && off.Length1 == len.Length1 == T_COLS && RowSays(off, len, text, r, row)
    ensures RowSays(off, len, text + more, r, row)
  {
    forall c | 0 <= c < T_COLS
      ensures (text + more)[off[r, c]..off[r, c] + len[r, c]] == row[c]
    {
      SliceKeeps(text, more, off[r, c], off[r, c] + len[r, c]);
    }
  }

  class TableBuffer {
    const tbuf: array<bv8>
    const cellOff: array2<nat>
    const cellLen: array2<nat>
    const colW: array<nat>
    var tlen: nat
    var tRows: nat
    var tableCols: nat
    var overflowed: bool
    ghost var text: seq<bv8>
    ghost var rows: seq<seq<seq<bv8>>>

    ghost predicate Shaped()
      reads this
    {
      && tbuf.Length == T_BYTES && colW.Length == T_COLS && cellOff != cellLen
      && cellOff.Length0 == cellLen.Length0 == T_ROWS && cellOff.Length1 == cellLen.Length1 == T_COLS
      && tlen <= T_BYTES && tRows <= T_ROWS && tableCols <= T_COLS && |rows| == tRows && |text| == tlen
    }

    ghost predicate Valid()
      reads this, tbuf, cellOff, cellLen, colW
    {
      Shaped() && tbuf[..tlen] == text && forall r :: 0 <= r < tRows ==> RowSays(cellOff, cellLen, text, r, rows[r])
    }

    ghost function Contents(): (c: Collected)
      requires Valid()
      reads this, tbuf, cellOff, cellLen, colW
      ensures Sized(c)
    {
      Collected(rows, colW[..], tableCols, tlen, overflowed)
    }

    constructor ()
      ensures Valid() && Contents() == EmptyTable()
      ensures fresh(tbuf) && fresh(cellOff) && fresh(cellLen) && fresh(colW)
    {
      tbuf := new bv8[T_BYTES](_ => 0);
      cellOff := new nat[T_ROWS, T_COLS]((_, _) => 0);
      cellLen := new nat[T_ROWS, T_COLS]((_, _) => 0);
      colW := new nat[T_COLS](_ => 0);
      tlen, tRows, tableCols, overflowed, rows, text := 0, 0, 0, false, [], [];
    }

    /** A table opens: everything collected before is forgotten. */
    method Open()
      requires Valid()
      modifies this, colW
      ensures Valid() && Contents() == EmptyTable()
    {
      for i := 0 to T_COLS
        invariant forall k :: 0 <= k < i ==> colW[k] == 0
        modifies colW
      {
        colW[i] := 0;
      }
      tlen, tRows, tableCols, overflowed, rows, text := 0, 0, 0, false, [], [];
    }

    /** One row: trimmed, split at its bars, and every cell stripped and copied behind the ones before. */
    method AddLine(line: seq<bv8>)
      requires Valid()
      modifies this, tbuf, cellOff, cellLen, colW
      ensures Valid() && Contents() == AddRow(old(Contents()), line)
    {
      hide AddCells, AddCell, Parts, Separator, Trimmed, Stored;
      var t := Trim(line, true);
      var sep := IsSeparator(t);
      if !sep {
        if tRows >= T_ROWS {
          overflowed := true;
        } else {
          AddParts(t);
        }
      }
    }

    method AddParts(t: seq<bv8>)
      requires Valid() && tRows < T_ROWS
      modifies this, tbuf, cellOff, cellLen, colW
      ensures Valid() && Contents() == AddCells(old(Contents()), [], Parts(t, 0))
    {
      hide AddCells, AddCell, Parts, Trimmed, Stored, RowSays;
      ghost var target := AddCells(Contents(), [], Parts(t, 0));
      ClearRow();
      ghost var row: seq<seq<bv8>> := [];
      var col := 0;
      var i := 0;
      while i <= |t| && col < T_COLS
        invariant Valid() && col == |row| <= T_COLS && tRows == old(tRows) && tableCols == old(tableCols) && i <= |t| + 1
        invariant RowSays(cellOff, cellLen, text, tRows, Padded(row)) && |Contents().rows| < T_ROWS
        invariant AddCells(Contents(), row, if i <= |t| then Parts(t, i) else []) == target
        decreases |t| + 1 - i
      {
        var cell := FindFrom(t, i, BAR, |t|);
        PartAt(t, i, cell);
        AddedCell(Contents(), row, t[i..cell], if cell + 1 <= |t| then Parts(t, cell + 1) else []);
        row := PutCell(col, t[i..cell], row);
        col := col + 1;
        i := cell + 1;
      }
      RowIsFull(Contents(), row, if i <= |t| then Parts(t, i) else []);
      CloseRow(col, row);
    }

    method CloseRow(col: nat, ghost row: seq<seq<bv8>>)
      requires Valid() && col == |row| <= T_COLS && tRows < T_ROWS && RowSays(cellOff, cellLen, text, tRows, Padded(row))
      modifies this
      ensures Valid() && Contents() == AddCells(old(Contents()), row, [])
    {
      if col > tableCols {
        tableCols := col;
      }
      rows := rows + [Padded(row)];
      tRows := tRows + 1;
    }

    method ClearRow()
      requires Valid() && tRows < T_ROWS
      modifies cellOff, cellLen
      ensures Valid() && Contents() == old(Contents()) && RowSays(cellOff, cellLen, text, tRows, Padded([]))
    {
      for k := 0 to T_COLS
        invariant forall r, c :: 0 <= r < tRows && 0 <= c < T_COLS ==> cellOff[r, c] == old(cellOff[r, c]) && cellLen[r, c] == old(cellLen[r, c])
        invariant forall c :: 0 <= c < k ==> cellOff[tRows, c] == 0 && cellLen[tRows, c] == 0
      {
        cellOff[tRows, k] := 0;
        cellLen[tRows, k] := 0;
      }
      forall r | 0 <= r < tRows
        ensures RowSays(cellOff, cellLen, text, r, rows[r])
      {
        assert old(RowSays(cellOff, cellLen, text, r, rows[r]));
      }
    }

    /** Copies one cell behind the others and widens its column to it. */
    method PutCell(col: nat, part: seq<bv8>, ghost row: seq<seq<bv8>>) returns (ghost more: seq<seq<bv8>>)
      requires Valid() && col == |row| < T_COLS && tRows < T_ROWS && RowSays(cellOff, cellLen, text, tRows, Padded(row))
      modifies this, tbuf, cellOff, cellLen, colW
      ensures Valid() && tRows == old(tRows) && tableCols == old(tableCols)
      ensures more == row + [Stored(Trimmed(part, false), T_BYTES - old(tlen))]
      ensures Contents() == AddCell(old(Contents()), col, part) && RowSays(cellOff, cellLen, text, tRows, Padded(more))
    {
      hide Trimmed, Stripped, Stored, RowSays;
      var t := Trim(part, false);
      var start := tlen;
      var n, over := CopyCell(t, tbuf, start);
      ghost var cell := Stored(t, T_BYTES - start);
      more := row + [cell];
      PlaceCell(col, start, n, row, cell);
      text := text + cell;
      tlen := start + n;
      overflowed := overflowed || over;
      assert tbuf[start..start + n] == tbuf[..tlen][start..] == cell;
      Widen(col, start, n);
    }

    method Widen(col: nat, start: nat, n: nat)
      requires col < colW.Length && start + n <= tbuf.Length
      modifies colW
      ensures colW[..] == old(colW[..])[col := Max(old(colW[..])[col], Cells(old(tbuf[start..start + n])))]
    {
      var w := CountCells(tbuf, start, n);
      if w > colW[col] {
        colW[col] := w;
      }
      assert colW[..] == old(colW[..])[col := Max(old(colW[col]), w)];
    }

    // The index takes the cell in; every other cell stays where it is.
    method PlaceCell(col: nat, start: nat, n: nat, ghost row: seq<seq<bv8>>, ghost cell: seq<bv8>)
      requires Shaped() && col == |row| < T_COLS && tRows < T_ROWS && start == |text| && n == |cell|
      requires RowSays(cellOff, cellLen, text, tRows, Padded(row)) && forall r :: 0 <= r < tRows ==> RowSays(cellOff, cellLen, text, r, rows[r])
      modifies cellOff, cellLen
      ensures RowSays(cellOff, cellLen, text + cell, tRows, Padded(row + [cell]))
      ensures forall r :: 0 <= r < tRows ==> RowSays(cellOff, cellLen, text + cell, r, rows[r])
    {
      forall r | 0 <= r <= tRows
        ensures RowSays(cellOff, cellLen, text + cell, r, if r < tRows then rows[r] else Padded(row))
      {
        TextGrows(cellOff, cellLen, text, cell, r, if r < tRows then rows[r] else Padded(row));
      }
      cellOff[tRows, col] := start;
      cellLen[tRows, col] := n;
      assert (text + cell)[start..start + n] == cell;
      forall r | 0 <= r < tRows
        ensures RowSays(cellOff, cellLen, text + cell, r, rows[r])
      {
        assert old(RowSays(cellOff, cellLen, text + cell, r, rows[r]));
      }
      assert old(RowSays(cellOff, cellLen, text + cell, tRows, Padded(row)));
    }

    /** The table closes: the columns in use, row by row, as they will be laid out. */
    method Close(style: Style) returns (table: Callback)
      requires Valid()
      ensures SixWide(Contents()) && table == TableOf(Contents(), style)
    {
      var laid: seq<seq<seq<bv8>>> := [];
      for r := 0 to tRows
        invariant |laid| == r && forall k :: 0 <= k < r ==> laid[k] == rows[k][..tableCols]
      {
        assert RowSays(cellOff, cellLen, text, r, rows[r]);
        var row: seq<seq<bv8>> := [];
        for c := 0 to tableCols
          invariant row == rows[r][..c]
        {
          CellBytes(r, c);
          row := row + [tbuf[cellOff[r, c]..cellOff[r, c] + cellLen[r, c]]];
        }
        laid := laid + [row];
      }
      table := Table(laid, colW[..tableCols], style);
      ghost var all, cols := rows, tableCols;
      assert laid == seq(|all|, r requires 0 <= r < |all| => all[r][..cols]);
      assert colW[..][..tableCols] == colW[..tableCols];
    }

    lemma CellBytes(r: nat, c: nat)
      requires Valid() && r < tRows && c < T_COLS && RowSays(cellOff, cellLen, text, r, rows[r])
      ensures cellOff[r, c] + cellLen[r, c] <= tbuf.Length && tbuf[cellOff[r, c]..cellOff[r, c] + cellLen[r, c]] == rows[r][c]
    {
      var a, b := cellOff[r, c], cellOff[r, c] + cellLen[r, c];
      assert tbuf[..tlen][a..b] == tbuf[a..b];
    }
  }
}
