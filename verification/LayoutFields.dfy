// What a field, a mark, a divider and a preformatted row show, cell by cell.
module LayoutFields {
  import opened Geometry
  import opened Utf8
  import opened Chunks
  import opened TableFit
  import opened LayoutTypes
  import opened LayoutSpec
  import opened LayoutWalk
  import opened LayoutText
  import opened LayoutPlaced

  function SymbolMark(d: Draw): seq<Mark> {
    if d.shape.Symbol? then [Mark(d.row, d.shape.x, d.shape.bytes, d.shape.black)] else []
  }

  /** The characters of a log drawn singly, in the body face, in order. */
  function Symbols(log: seq<Draw>): seq<Mark>
    decreases |log|
  {
    if log == [] then [] else Symbols(log[..|log| - 1]) + SymbolMark(log[|log| - 1])
  }

  /** A text cut into its characters. */
  function Chars(t: seq<bv8>, k: nat): seq<seq<bv8>>
    decreases |t| - k
  {
    if k < |t| then [ChunkAt(t, k)] + Chars(t, k + SeqLen(t[k])) else []
  }

  /** The cells of six pixels left of the right margin. */
  function Room(x: nat): nat {
    if x + 6 <= 398 then (398 - x) / 6 else 0
  }

  /** Characters in a row of cells from column x on. */
  function InCells(chars: seq<seq<bv8>>, row: nat, x: int, black: bool): (marks: seq<Mark>)
    ensures |marks| == |chars|
  {
    seq(|chars|, (j: nat) requires j < |chars| => Mark(row, x + 6 * j, chars[j], black))
  }

  function Times(n: nat, c: seq<bv8>): (cs: seq<seq<bv8>>)
    ensures |cs| == n
  {
    seq(n, _ => c)
  }

  lemma SymbolsSnoc(log: seq<Draw>, d: Draw)
    ensures Symbols(log + [d]) == Symbols(log) + SymbolMark(d)
  {
    assert (log + [d])[..|log|] == log;
  }

  lemma PutShows(g: Page, s: Layout, when: bool, shape: Shape)
    requires Seen(g.view, s.pen.y)
    ensures shape.Symbol? ==>
      Symbols(Put(g, s, shape).log) == Symbols(s.log) + [Mark(ScreenY(g.view, s.pen.y), shape.x, shape.bytes, shape.black)]
    ensures !shape.Symbol? ==> Symbols(Put(g, s, shape).log) == Symbols(s.log) == Symbols(PutIf(g, s, when, shape).log)
  {
    hide Symbols, ScreenY;
    SymbolsSnoc(s.log, Draw(ScreenY(g.view, s.pen.y), RowHeight(g, s), shape));
    assert Symbols(s.log) + [] == Symbols(s.log);
  }

  lemma InCellsCons(c: seq<bv8>, chars: seq<seq<bv8>>, row: nat, x: int, black: bool)
    ensures InCells([c] + chars, row, x, black) == [Mark(row, x, c, black)] + InCells(chars, row, x + 6, black)
  {
    var all := [c] + chars;
    assert forall j :: 1 <= j < |all| ==> all[j] == chars[j - 1];
    assert InCells(all, row, x, black) == [Mark(row, x, c, black)] + InCells(chars, row, x + 6, black);
  }

  lemma TimesCons(n: nat, c: seq<bv8>)
    requires n > 0
    ensures Times(n, c) == [c] + Times(n - 1, c)
  {
  }

  // ---- Text fields ----------------------------------------------------

  /** The characters a text field shows of its value: asterisks when masked. */
  function Face(f: Field, vk: nat): seq<seq<bv8>> {
    if f.masked then Times(|Chars(f.value, vk)|, [0x2A]) else Chars(f.value, vk)
  }

  function Cut(cs: seq<seq<bv8>>, n: nat): seq<seq<bv8>> {
    if |cs| <= n then cs else cs[..n]
  }

  /** The cells of a field: as much of the value as fits, then underscores where there is no background. */
  function FieldMarks(chars: seq<seq<bv8>>, n: nat, row: nat, x: int, hasBg: bool, ink: bool): seq<Mark> {
    var shown := Cut(chars, n);
    InCells(shown, row, x, ink) + if hasBg then [] else InCells(Times(n - |shown|, [0x5F]), row, x + 6 * |shown|, true)
  }

  lemma FieldMarksCons(c: seq<bv8>, chars: seq<seq<bv8>>, n: nat, row: nat, x: int, hasBg: bool, ink: bool)
    requires n > 0
    ensures FieldMarks([c] + chars, n, row, x, hasBg, ink) == [Mark(row, x, c, ink)] + FieldMarks(chars, n - 1, row, x + 6, hasBg, ink)
  {
    hide InCells, Times;
    var shown, rest := Cut([c] + chars, n), Cut(chars, n - 1);
    assert shown == [c] + rest;
    InCellsCons(c, rest, row, x, ink);
    assert x + 6 * |shown| == x + 6 + 6 * |rest| && n - |shown| == n - 1 - |rest|;
  }

  lemma FieldMarksEmpty(n: nat, row: nat, x: int, hasBg: bool, ink: bool)
    requires n > 0
    ensures FieldMarks([], n, row, x, hasBg, ink)
         == (if hasBg then [] else [Mark(row, x, [0x5F], true)]) + FieldMarks([], n - 1, row, x + 6, hasBg, ink)
  {
    hide InCells, Times;
    NoCells(row, x, ink);
    NoCells(row, x + 6, ink);
    TimesCons(n, [0x5F]);
    InCellsCons([0x5F], Times(n - 1, [0x5F]), row, x, true);
  }

  lemma NoCells(row: nat, x: int, ink: bool)
    ensures InCells([], row, x, ink) == []
  {
  }

  lemma FaceStep(f: Field, vk: nat)
    ensures vk < |f.value| ==> Face(f, vk) == [if f.masked then [0x2A] else ChunkAt(f.value, vk)] + Face(f, vk + SeqLen(f.value[vk]))
    ensures vk >= |f.value| ==> Face(f, vk) == []
  {
    if vk < |f.value| && f.masked {
      TimesCons(|Chars(f.value, vk)|, [0x2A]);
    }
  }

  // What one cell of a field shows.
  function CellMarks(f: Field, vk: nat, row: nat, x: int, hasBg: bool, ink: bool): seq<Mark> {
    if vk < |f.value| then [Mark(row, x, if f.masked then [0x2A] else ChunkAt(f.value, vk), ink)]
    else if hasBg then [] else [Mark(row, x, [0x5F], true)]
  }

  function Next(f: Field, vk: nat): nat {
    if vk < |f.value| then vk + SeqLen(f.value[vk]) else vk
  }

  lemma CellShows(g: Page, s: Layout, f: Field, vk: nat, hasBg: bool, ink: bool)
    requires Seen(g.view, s.pen.y)
    ensures Symbols(FieldCell(g, s, f, vk, hasBg, ink).log)
         == Symbols(s.log) + CellMarks(f, vk, ScreenY(g.view, s.pen.y), s.pen.x, hasBg, ink)
    ensures FieldCell(g, s, f, vk, hasBg, ink).pen == s.pen
  {
    hide Symbols, Seen, ScreenY, ChunkAt;
    if vk < |f.value| {
      PutShows(g, s, true, Symbol(s.pen.x, if f.masked then [0x2A] else ChunkAt(f.value, vk), ink));
    } else {
      PutShows(g, s, !hasBg, Symbol(s.pen.x, [0x5F], true));
      assert Symbols(s.log) + [] == Symbols(s.log);
    }
  }

  lemma FieldMarksStep(f: Field, vk: nat, n: nat, row: nat, x: int, hasBg: bool, ink: bool)
    requires n > 0
    ensures FieldMarks(Face(f, vk), n, row, x, hasBg, ink)
         == CellMarks(f, vk, row, x, hasBg, ink) + FieldMarks(Face(f, Next(f, vk)), n - 1, row, x + 6, hasBg, ink)
  {
    hide FieldMarks, Face, ChunkAt;
    FaceStep(f, vk);
    if vk < |f.value| {
      FieldMarksCons(if f.masked then [0x2A] else ChunkAt(f.value, vk), Face(f, Next(f, vk)), n, row, x, hasBg, ink);
    } else {
      FieldMarksEmpty(n, row, x, hasBg, ink);
    }
  }

  lemma FieldStep(g: Page, s: Layout, f: Field, col: nat, vk: nat, hasBg: bool, ink: bool)
    ensures FieldCols(g, s, f, col, vk, hasBg, ink)
         == if col < FieldWidth(f) && s.pen.x + 6 <= 398
            then FieldCols(g, Moved(FieldCell(g, s, f, vk, hasBg, ink), 6), f, col + 1, Next(f, vk), hasBg, ink) else s
  {
  }

  lemma RoomStep(x: nat)
    ensures x + 6 <= 398 ==> Room(x) > 0 && Room(x + 6) == Room(x) - 1
    ensures x + 6 > 398 ==> Room(x) == 0
  {
  }

  // How many cells a field gets.
  function CellsGot(f: Field, col: nat, x: nat): nat
    requires col <= FieldWidth(f)
  {
    Min(FieldWidth(f) - col, Room(x))
  }

  lemma GotStep(f: Field, col: nat, x: nat)
    requires col <= FieldWidth(f)
    ensures if col < FieldWidth(f) && x + 6 <= 398 then CellsGot(f, col, x) == 1 + CellsGot(f, col + 1, x + 6) else CellsGot(f, col, x) == 0
  {
    RoomStep(x);
  }

  lemma NextCellOf(g: Page, s: Layout, f: Field, vk: nat, hasBg: bool, ink: bool) returns (m: Layout)
    requires Seen(g.view, s.pen.y) && s.pen.x + 6 <= 398
    ensures m == Moved(FieldCell(g, s, f, vk, hasBg, ink), 6) && m.pen == s.pen.(x := s.pen.x + 6, rowOpen := true)
    ensures Symbols(m.log) == Symbols(s.log) + CellMarks(f, vk, ScreenY(g.view, s.pen.y), s.pen.x, hasBg, ink)
  {
    hide Symbols, Seen, ScreenY, FieldCell, CellMarks;
    CellShows(g, s, f, vk, hasBg, ink);
    m := Moved(FieldCell(g, s, f, vk, hasBg, ink), 6);
  }

  lemma {:induction false} ColsShow(g: Page, s: Layout, f: Field, col: nat, vk: nat, hasBg: bool, ink: bool)
    requires Seen(g.view, s.pen.y) && col <= FieldWidth(f)
    ensures Symbols(FieldCols(g, s, f, col, vk, hasBg, ink).log)
         == Symbols(s.log) + FieldMarks(Face(f, vk), CellsGot(f, col, s.pen.x), ScreenY(g.view, s.pen.y), s.pen.x, hasBg, ink)
    decreases FieldWidth(f) - col
  {
    hide Symbols, Seen, ScreenY, FieldCell, FieldMarks, FieldCols, Face, CellsGot, FieldWidth, CellMarks, Next, Moved;
    var row := ScreenY(g.view, s.pen.y);
    GotStep(f, col, s.pen.x);
    FieldStep(g, s, f, col, vk, hasBg, ink);
    if col < FieldWidth(f) && s.pen.x + 6 <= 398 {
      var m := NextCellOf(g, s, f, vk, hasBg, ink);
      FieldMarksStep(f, vk, CellsGot(f, col, s.pen.x), row, s.pen.x, hasBg, ink);
      ColsShow(g, m, f, col + 1, Next(f, vk), hasBg, ink);
      Regrouped(Symbols(s.log), CellMarks(f, vk, row, s.pen.x, hasBg, ink),
                FieldMarks(Face(f, Next(f, vk)), CellsGot(f, col + 1, m.pen.x), row, m.pen.x, hasBg, ink));
    } else {
      NoMarks(Face(f, vk), row, s.pen.x, hasBg, ink);
      assert Symbols(s.log) + [] == Symbols(s.log);
    }
  }

  lemma {:induction false} ColsMove(g: Page, s: Layout, f: Field, col: nat, vk: nat, hasBg: bool, ink: bool)
    requires col <= FieldWidth(f)
    ensures var b := FieldCols(g, s, f, col, vk, hasBg, ink);
      && b.pen.y == s.pen.y && b.pen.x == s.pen.x + 6 * CellsGot(f, col, s.pen.x)
    decreases FieldWidth(f) - col
  {
    hide FieldCell, FieldCols, CellsGot, FieldWidth, Next, Moved;
    GotStep(f, col, s.pen.x);
    FieldStep(g, s, f, col, vk, hasBg, ink);
    if col < FieldWidth(f) && s.pen.x + 6 <= 398 {
      var c := FieldCell(g, s, f, vk, hasBg, ink);
      CellKeepsPen(g, s, f, vk, hasBg, ink);
      MovedPen(c, 6);
      ColsMove(g, Moved(c, 6), f, col + 1, Next(f, vk), hasBg, ink);
    }
  }

  lemma CellKeepsPen(g: Page, s: Layout, f: Field, vk: nat, hasBg: bool, ink: bool)
    ensures FieldCell(g, s, f, vk, hasBg, ink).pen == s.pen
  {
  }

  lemma NoMarks(chars: seq<seq<bv8>>, row: nat, x: int, hasBg: bool, ink: bool)
    ensures FieldMarks(chars, 0, row, x, hasBg, ink) == []
  {
  }
  /** A text field, told without its cells' code: of its width as many cells as fit before the margin, in them the value's
      characters or an asterisk for each, and underscores after them when nothing is painted behind. */
  lemma FieldShows(g: Page, s: Layout, f: Field, style: Style)
    requires f.kind == TextField && Seen(g.view, s.pen.y) && Chunked(f.caption, 0)
    ensures var b := OnField(g, s, f, style); var x := if s.pen.rowOpen then s.pen.x else LeftEdge(style.depth);
      var n := Min(if f.width == 0 then 1 else f.width, Room(x));
      var value := if f.masked then Times(|Chars(f.value, 0)|, [0x2A]) else Chars(f.value, 0);
      && Symbols(b.log) == Symbols(s.log) + FieldMarks(value, n, ScreenY(g.view, s.pen.y), x, HasBg(style.bg), !DarkBg(style))
      && b.pen.x == x + 6 * n && b.pen.y == s.pen.y
  {
    hide Symbols, Seen, ScreenY, FieldCols, FieldMarks, HasBg, Luma, Times, Chars, Room;
    var s1 := ToMargin(Deepened(s, style.depth));
    assert Indent(s1) == LeftEdge(style.depth);
    var dark := DarkBg(style);
    var s2 :=
      if dark then Put(g, s1, Fill(s1.pen.x, BarWidth(s1, f), RowHeight(g, s1), true))
      else if HasBg(style.bg) then PaintBg(g, s1, s1.pen.x, BarWidth(s1, f), Luma(style.bg))
      else s1;
    BarShows(g, s1, f, dark, HasBg(style.bg), Luma(style.bg));
    ColsShow(g, s2, f, 0, 0, HasBg(style.bg), !dark);
    ColsMove(g, s2, f, 0, 0, HasBg(style.bg), !dark);
  }

  lemma BarShows(g: Page, s: Layout, f: Field, dark: bool, hasBg: bool, luma: nat)
    requires Seen(g.view, s.pen.y)
    ensures var b :=
      if dark then Put(g, s, Fill(s.pen.x, BarWidth(s, f), RowHeight(g, s), true))
      else if hasBg then PaintBg(g, s, s.pen.x, BarWidth(s, f), luma)
      else s;
      Symbols(b.log) == Symbols(s.log) && b.pen == s.pen
  {
    hide Symbols, Seen, ScreenY, BarWidth;
    PutShows(g, s, true, Fill(s.pen.x, BarWidth(s, f), RowHeight(g, s), true));
    PutShows(g, s, true, Texture(s.pen.x, BarWidth(s, f), RowHeight(g, s), luma));
    PutShows(g, s, luma < 128, Fill(s.pen.x, BarWidth(s, f), RowHeight(g, s), true));
  }

  // Masked cells do not depend on the value.
  lemma {:induction false} MaskedCols(g: Page, s: Layout, a: Field, b: Field, col: nat, va: nat, vb: nat, hasBg: bool, ink: bool)
    requires a.masked && b.masked && a.width == b.width && |Chars(a.value, va)| == |Chars(b.value, vb)|
    ensures FieldCols(g, s, a, col, va, hasBg, ink) == FieldCols(g, s, b, col, vb, hasBg, ink)
    decreases FieldWidth(a) - col
  {
    hide Put, PutIf, Moved;
    FieldStep(g, s, a, col, va, hasBg, ink);
    FieldStep(g, s, b, col, vb, hasBg, ink);
    if col < FieldWidth(a) && s.pen.x + 6 <= 398 {
      MaskedCols(g, Moved(FieldCell(g, s, a, va, hasBg, ink), 6), a, b, col + 1, Next(a, va), Next(b, vb), hasBg, ink);
    }
  }

  /** A masked field gives nothing away but how long its value is: any two of one width, with as many characters, are
      drawn alike, whatever the pen, the page and the view. */
  lemma MaskedFieldsLookAlike(g: Page, s: Layout, a: Field, b: Field, style: Style)
    requires a.kind == TextField && b.kind == TextField && a.masked && b.masked && a.width == b.width
    requires |Chars(a.value, 0)| == |Chars(b.value, 0)| && Chunked(a.caption, 0) && Chunked(b.caption, 0)
    ensures OnField(g, s, a, style) == OnField(g, s, b, style)
  {
    hide FieldCols, Chars, HasBg, Luma, PaintBg, Put;
    var s1 := ToMargin(Deepened(s, style.depth));
    var dark := DarkBg(style);
    var s2 :=
      if dark then Put(g, s1, Fill(s1.pen.x, BarWidth(s1, a), RowHeight(g, s1), true))
      else if HasBg(style.bg) then PaintBg(g, s1, s1.pen.x, BarWidth(s1, a), Luma(style.bg))
      else s1;
    MaskedCols(g, s2, a, b, 0, 0, 0, HasBg(style.bg), !dark);
  }

  predicate Scalars(cps: seq<bv32>) {
    forall i :: 0 <= i < |cps| ==> Scalar(cps[i])
  }

  function Encodings(cps: seq<bv32>): seq<seq<bv8>>
    requires Scalars(cps)
  {
    seq(|cps|, (i: nat) requires i < |cps| => Encode(cps[i]))
  }

  lemma EncodingsCons(cps: seq<bv32>)
    requires Scalars(cps) && cps != []
    ensures Scalars(cps[1..]) && Encodings(cps) == [Encode(cps[0])] + Encodings(cps[1..])
  {
    hide Encode, Scalar;
  }

  lemma NextChar(s: seq<bv8>, p: nat, cps: seq<bv32>) returns (q: nat)
    requires Scalars(cps) && cps != [] && p <= |s| && s[p..] == Utf8.Text(cps)
    ensures p < q <= |s| && Scalars(cps[1..]) && s[q..] == Utf8.Text(cps[1..]) && q == p + SeqLen(s[p]) && ChunkAt(s, p) == Encode(cps[0])
  {
    hide Encode, SeqLen, ChunkAt, Scalar;
    q := TextStep(s, p, cps);
    Prefixed(s, p, Encode(cps[0]), Utf8.Text(cps[1..]));
    FirstChar(s, p, cps[0]);
  }

  /** Of well-formed text the characters are its scalars' encodings. */
  lemma {:induction false} CharsOfText(s: seq<bv8>, p: nat, cps: seq<bv32>)
    requires Scalars(cps) && p <= |s| && s[p..] == Utf8.Text(cps)
    ensures Chars(s, p) == Encodings(cps)
    decreases |cps|
  {
    hide Encode, SeqLen, ChunkAt, Encodings, Scalars, Chars;
    CharsStep(s, p);
    if cps != [] {
      var q := NextChar(s, p, cps);
      CharsOfText(s, q, cps[1..]);
      EncodingsCons(cps);
    } else {
      assert Encodings([]) == [] by { NoEncodings(); }
    }
  }

  lemma NoEncodings()
    ensures Scalars([]) && Encodings([]) == []
  {
  }

  lemma FirstChar(s: seq<bv8>, p: nat, cp: bv32)
    requires Scalar(cp) && Holds(s, p, cp)
    ensures p < |s| && ChunkAt(s, p) == Encode(cp)
  {
    hide Encode;
    Leads(s, p, cp);
  }
  // ---- The bar behind it ----------------------------------------------

  lemma {:induction false} ColsGrow(g: Page, s: Layout, f: Field, col: nat, vk: nat, hasBg: bool, ink: bool)
    ensures s.log <= FieldCols(g, s, f, col, vk, hasBg, ink).log
    decreases FieldWidth(f) - col
  {
    hide FieldWidth, Next, ScreenY, Seen, FieldCols, ChunkAt;
    FieldStep(g, s, f, col, vk, hasBg, ink);
    if col < FieldWidth(f) && s.pen.x + 6 <= 398 {
      ColsGrow(g, Moved(FieldCell(g, s, f, vk, hasBg, ink), 6), f, col + 1, Next(f, vk), hasBg, ink);
    }
  }

  /** The bar of a text field comes before its characters, and is as wide as its cells would be, or ends at the margin:
      black behind white characters, the background's texture behind black ones, and none without a background. */
  lemma FieldBar(g: Page, s: Layout, f: Field, style: Style)
    requires f.kind == TextField && Seen(g.view, s.pen.y) && Chunked(f.caption, 0) && s.pen.rowOpen && s.pen.x <= 398
    ensures var w := 6 * if f.width == 0 then 1 else f.width; var (bar, h) := (Min(w, 398 - s.pen.x), RowHeight(g, s));
      var shape := if DarkBg(style) then [Fill(s.pen.x, bar, h, true)]
                   else if HasBg(style.bg) && g.cfg.dither then [Texture(s.pen.x, bar, h, Luma(style.bg))]
                   else [];
      s.log + (if shape == [] then [] else [Draw(ScreenY(g.view, s.pen.y), h, shape[0])]) <= OnField(g, s, f, style).log
  {
    hide Seen, ScreenY, HasBg, Luma, FieldCols;
    var s1 := Deepened(s, style.depth);
    var dark := DarkBg(style);
    var s2 :=
      if dark then Put(g, s1, Fill(s1.pen.x, BarWidth(s1, f), RowHeight(g, s1), true))
      else if HasBg(style.bg) then PaintBg(g, s1, s1.pen.x, BarWidth(s1, f), Luma(style.bg))
      else s1;
    ColsGrow(g, s2, f, 0, 0, HasBg(style.bg), !dark);
  }

  // ---- Checkboxes and radio buttons -----------------------------------

  /** What a mark draws: a filled or an empty circle, or a box and, when it is ticked, a tick over it. */
  function Ticks(kind: FieldKind, prechecked: bool): seq<bv32> {
    if kind == Radio then (if prechecked then [0x25CF] else [0x25CB])
    else if prechecked then [0x25A1, 0x2713] else [0x25A1]
  }

  /** The same, in the encoding of the display. */
  function TickMarks(kind: FieldKind, prechecked: bool, row: nat, x: int, black: bool): seq<Mark> {
    var cps := Ticks(kind, prechecked);
    TicksAreScalars(kind, prechecked);
    seq(|cps|, (i: nat) requires i < |cps| => Mark(row, x, Encode(cps[i]), black))
  }

  lemma TicksAreScalars(kind: FieldKind, prechecked: bool)
    ensures forall i :: 0 <= i < |Ticks(kind, prechecked)| ==> Scalar(Ticks(kind, prechecked)[i])
  {
  }

  lemma TickBytes()
    ensures Encode(0x25CF) == [0xE2, 0x97, 0x8F] && Encode(0x25CB) == [0xE2, 0x97, 0x8B]
    ensures Encode(0x25A1) == [0xE2, 0x96, 0xA1] && Encode(0x2713) == [0xE2, 0x9C, 0x93]
  {
  }

  lemma TickMarksAre(kind: FieldKind, prechecked: bool, row: nat, x: int, black: bool)
    ensures TickMarks(kind, prechecked, row, x, black) ==
      if kind == Radio then [Mark(row, x, if prechecked then [0xE2, 0x97, 0x8F] else [0xE2, 0x97, 0x8B], black)]
      else [Mark(row, x, [0xE2, 0x96, 0xA1], black)] + if prechecked then [Mark(row, x, [0xE2, 0x9C, 0x93], black)] else []
  {
    TickBytes();
    hide Encode;
  }

  lemma MarkDraws(g: Page, s: Layout, f: Field)
    requires f.kind != TextField && Seen(g.view, s.pen.y)
    ensures Symbols(OnMark(g, s, f).log)
         == Symbols(s.log) + TickMarks(f.kind, f.prechecked, ScreenY(g.view, s.pen.y), s.pen.x, !s.pen.invert)
    ensures OnMark(g, s, f).pen == s.pen.(x := Wrap16(s.pen.x + 6), rowOpen := true)
  {
    hide Symbols, Seen, ScreenY, TickMarks;
    var row := ScreenY(g.view, s.pen.y);
    TickMarksAre(f.kind, f.prechecked, row, s.pen.x, !s.pen.invert);
    var first := if f.kind == Radio then (if f.prechecked then [0xE2, 0x97, 0x8F] else [0xE2, 0x97, 0x8B]) else [0xE2, 0x96, 0xA1];
    var shape := Symbol(s.pen.x, first, !s.pen.invert);
    PutShows(g, s, true, shape);
    PutShows(g, Put(g, s, shape), true, Symbol(s.pen.x, [0xE2, 0x9C, 0x93], !s.pen.invert));
    Regrouped(Symbols(s.log), [Mark(row, s.pen.x, first, !s.pen.invert)], [Mark(row, s.pen.x, [0xE2, 0x9C, 0x93], !s.pen.invert)]);
  }

  /** A checkbox or a radio button without a caption shows just its mark, in one cell; `prechecked` decides which. */
  lemma MarkShows(g: Page, s: Layout, f: Field, style: Style)
    requires f.kind != TextField && f.caption == [] && Seen(g.view, s.pen.y) && Chunked(f.caption, 0)
    ensures var b := OnField(g, s, f, style); var x := if s.pen.rowOpen then s.pen.x else LeftEdge(style.depth);
      && Symbols(b.log) == Symbols(s.log) + TickMarks(f.kind, f.prechecked, ScreenY(g.view, s.pen.y), x, !s.pen.invert)
      && b.pen.x == Wrap16(x + 6) && b.pen.rowOpen
  {
    hide Symbols, Seen, ScreenY, TickMarks, OnMark;
    var s1 := ToMargin(Deepened(s, style.depth));
    assert Indent(s1) == LeftEdge(style.depth);
    MarkDraws(g, s1, f);
  }

  /** With a caption there is a blank cell after the mark and then the caption, all on one row when it fits. */
  lemma CaptionFollows(g: Page, s: Layout, f: Field, style: Style)
    requires f.kind != TextField && f.caption != [] && Seen(g.view, s.pen.y) && Chunked(f.caption, 0) && !s.pen.literal && s.pen.rowOpen
    requires LeftEdge(style.depth) <= s.pen.x && s.pen.x + 6 + Pace(s) + RunWidth(s, f.caption) <= 398
    ensures var b := OnField(g, s, f, style); var x := s.pen.x + 6 + Pace(s);
      && b.pen.x == x + RunWidth(s, f.caption) && b.pen.y == s.pen.y
      && Glyphs(b.log) == Glyphs(OnMark(g, Deepened(s, style.depth), f).log) + Typed(f.caption, 0, |f.caption|, ScreenY(g.view, s.pen.y), x, Pace(s), !s.pen.invert)
  {
    hide Glyphs, Seen, ScreenY, OnMark, Typed, Pace, Cells, ChunkCount, Tokens, Indent;
    var s1 := Deepened(s, style.depth);
    DeepIndent(s, style.depth);
    MarkDraws(g, s1, f);
    var s2 := OnMark(g, s1, f);
    SamePace(s1, s2);
    SpaceOne();
    ProseTypes(g, s2, OneSpace(), 0, s2.pen.invert);
    var s3 := Tokens(g, s2, OneSpace(), 0, s2.pen.invert);
    TypesPen(g, s2, s3, OneSpace(), 0, 1, s2.pen.invert);
    CellsAreChunks(f.caption);
    ProseTypes(g, s3, f.caption, 0, s3.pen.invert);
    TypedSpace(ScreenY(g.view, s.pen.y), s2.pen.x, Pace(s), !s.pen.invert);
    assert Glyphs(s2.log) + [] == Glyphs(s2.log);
  }

  lemma DeepIndent(s: Layout, depth: nat)
    ensures var b := Deepened(s, depth); Indent(b) == LeftEdge(depth) && Pace(b) == Pace(s)
  {
  }

  lemma SpaceOne()
    ensures OneSpace() == [0x20] && SeqLen(0x20) == 1 && ChunkCount(OneSpace(), 0, 1) == 1
  {
    assert SeqLen(0x20) == 1;
    assert ChunkCount(OneSpace(), 1, 1) == 0;
  }

  lemma TypedSpace(row: nat, x: int, p: nat, black: bool)
    ensures Typed(OneSpace(), 0, 1, row, x, p, black) == []
  {
    SpaceOne();
    assert ChunkAt(OneSpace(), 0) == [0x20];
    NothingTyped(OneSpace(), 1, 1, row, x + p, p, black);
  }

  // ---- Dividers -------------------------------------------------------

  lemma {:induction false} DividerShows(g: Page, s: Layout, x: nat, bytes: seq<bv8>)
    requires Seen(g.view, s.pen.y)
    ensures Symbols(DividerFrom(g, s, x, bytes).log)
         == Symbols(s.log) + InCells(Times(Room(x), bytes), ScreenY(g.view, s.pen.y), x, true)
    ensures DividerFrom(g, s, x, bytes).pen == s.pen
    decreases RIGHT - x
  {
    hide Symbols, Seen, ScreenY, InCells, Times, Room;
    RoomStep(x);
    var row := ScreenY(g.view, s.pen.y);
    if x + 6 <= 398 {
      PutShows(g, s, true, Symbol(x, bytes, true));
      DividerShows(g, Put(g, s, Symbol(x, bytes, true)), x + 6, bytes);
      TimesCons(Room(x), bytes);
      InCellsCons(bytes, Times(Room(x) - 1, bytes), row, x, true);
      Regrouped(Symbols(s.log), [Mark(row, x, bytes, true)], InCells(Times(Room(x) - 1, bytes), row, x + 6, true));
    } else {
      NoneTimes(bytes, row, x);
      assert Symbols(s.log) + [] == Symbols(s.log);
    }
  }

  lemma NoneTimes(bytes: seq<bv8>, row: nat, x: int)
    ensures InCells(Times(0, bytes), row, x, true) == []
  {
  }

  /** A divider fills its row with its character: sixty-six cells from the margin, two fewer for each of four depths. */
  lemma DividerFills(g: Page, s: Layout, ch: bv32, style: Style)
    requires Seen(g.view, s.pen.y)
    ensures var b := OnDivider(g, s, ch, style); var depth := if style.depth > 4 then 4 else style.depth;
      && Symbols(b.log) == Symbols(s.log)
          + InCells(Times(66 - 2 * depth, DividerBytes(ch)), ScreenY(g.view, s.pen.y), LeftEdge(style.depth), true)
      && b.pen.rowOpen && b.pen.y == s.pen.y && b.pen.x == if s.pen.rowOpen then s.pen.x else LeftEdge(style.depth)
  {
    hide Symbols, Seen, ScreenY, InCells, Times, DividerBytes;
    var s1 := ToMargin(Deepened(s, style.depth));
    assert Indent(s1) == LeftEdge(style.depth);
    DividerShows(g, s1, Indent(s1), DividerBytes(ch));
    DividerRoom(style.depth);
  }

  lemma DividerRoom(depth: nat)
    ensures Room(LeftEdge(depth)) == 66 - 2 * if depth > 4 then 4 else depth
  {
  }

  // ---- Preformatted rows ----------------------------------------------

  lemma LiteralCellShows(g: Page, s: Layout, bytes: seq<bv8>, invert: bool)
    requires Seen(g.view, s.pen.y) && s.pen.x + 6 <= 398
    ensures var b := LiteralCellOf(g, s, bytes, invert);
      && Glyphs(b.log) == Glyphs(s.log) + [Mark(ScreenY(g.view, s.pen.y), s.pen.x, bytes, !invert)]
      && Symbols(b.log) == Symbols(s.log) && b.pen == s.pen.(x := s.pen.x + 6, rowOpen := true)
  {
    hide Glyphs, Symbols, Seen, ScreenY, RowHeight, SymbolMark, GlyphMark;
    var fill := Fill(s.pen.x, FONT_ADVANCE, RowHeight(g, s), true);
    PutShows(g, s, invert, fill);
    PutTypes(g, s, invert, fill);
    var s1 := PutIf(g, s, invert, fill);
    PutShows(g, s1, true, Glyph(Body, s.pen.x, bytes, !invert));
    PutTypes(g, s1, true, Glyph(Body, s.pen.x, bytes, !invert));
  }

  lemma ClippedShows(g: Page, s: Layout, invert: bool)
    requires Seen(g.view, s.pen.y)
    ensures var b := Clipped(g, s, invert);
      && Glyphs(b.log) == Glyphs(s.log)
      && Symbols(b.log) == Symbols(s.log) + [Mark(ScreenY(g.view, s.pen.y), 392, [0xC2, 0xBB], !invert)]
      && b.pen.x == s.pen.x && b.pen.y == s.pen.y
  {
    hide Glyphs, Symbols, Seen, ScreenY;
    var fill := Fill(RIGHT - FONT_ADVANCE, FONT_ADVANCE, RowHeight(g, s), invert);
    PutShows(g, s, true, fill);
    PutTypes(g, s, true, fill);
    var s1 := Put(g, s, fill);
    PutShows(g, s1, true, Symbol(RIGHT - FONT_ADVANCE, [0xC2, 0xBB], !invert));
    PutTypes(g, s1, true, Symbol(RIGHT - FONT_ADVANCE, [0xC2, 0xBB], !invert));
  }

  lemma LiteralStep(g: Page, s: Layout, t: seq<bv8>, k: nat, invert: bool)
    ensures LiteralFrom(g, s, t, k, invert) ==
      if k >= |t| then s
      else if s.pen.x + 6 > 398 then Clipped(g, s, invert)
      else LiteralFrom(g, LiteralCellOf(g, s, ChunkAt(t, k), invert), t, k + SeqLen(t[k]), invert)
  {
  }

  lemma CharsStep(t: seq<bv8>, k: nat)
    ensures if k < |t| then Chars(t, k) == [ChunkAt(t, k)] + Chars(t, k + SeqLen(t[k])) else Chars(t, k) == []
  {
  }

  lemma CutStep(c: seq<bv8>, cs: seq<seq<bv8>>, n: nat)
    requires n > 0
    ensures Cut([c] + cs, n) == [c] + Cut(cs, n - 1)
  {
  }

  lemma CutNone(cs: seq<seq<bv8>>, row: nat, x: int, black: bool)
    ensures InCells(Cut(cs, 0), row, x, black) == []
    ensures InCells(Cut([], 0), row, x, black) == []
  {
  }

  lemma CutEmpty(n: nat)
    ensures Cut([], n) == []
  {
  }

  /** Preformatted text goes cell by cell from the pen on, blanks too, and is never wrapped: what the row does not hold
      is dropped, and a mark takes the row's last cell exactly then. */
  lemma {:induction false} LiteralShows(g: Page, s: Layout, t: seq<bv8>, k: nat, invert: bool)
    requires Seen(g.view, s.pen.y)
    ensures var b := LiteralFrom(g, s, t, k, invert); var (cs, n) := (Chars(t, k), Room(s.pen.x));
      && Glyphs(b.log) == Glyphs(s.log) + InCells(Cut(cs, n), ScreenY(g.view, s.pen.y), s.pen.x, !invert)
      && Symbols(b.log) == Symbols(s.log) + (if |cs| > n then [Mark(ScreenY(g.view, s.pen.y), 392, [0xC2, 0xBB], !invert)] else [])
      && b.pen.x == s.pen.x + 6 * Min(|cs|, n) && b.pen.y == s.pen.y
    decreases |t| - k
  {
    hide Glyphs, Symbols, Seen, ScreenY, ChunkAt, LiteralFrom, LiteralCellOf, Clipped, Chars, InCells, Cut, Room;
    RoomStep(s.pen.x);
    LiteralStep(g, s, t, k, invert);
    CharsStep(t, k);
    var row := ScreenY(g.view, s.pen.y);
    CutNone(Chars(t, k), row, s.pen.x, !invert);
    CutEmpty(Room(s.pen.x));
    assert Glyphs(s.log) + [] == Glyphs(s.log) && Symbols(s.log) + [] == Symbols(s.log);
    if k < |t| {
      if s.pen.x + 6 > 398 {
        ClippedShows(g, s, invert);
      } else {
        LiteralCellShows(g, s, ChunkAt(t, k), invert);
        var next := k + SeqLen(t[k]);
        LiteralShows(g, LiteralCellOf(g, s, ChunkAt(t, k), invert), t, next, invert);
        var rest := Cut(Chars(t, next), Room(s.pen.x) - 1);
        CutStep(ChunkAt(t, k), Chars(t, next), Room(s.pen.x));
        InCellsCons(ChunkAt(t, k), rest, row, s.pen.x, !invert);
        Regrouped(Glyphs(s.log), [Mark(row, s.pen.x, ChunkAt(t, k), !invert)], InCells(rest, row, s.pen.x + 6, !invert));
      }
    } else {
      NoCells(row, s.pen.x, !invert);
    }
  }
}
