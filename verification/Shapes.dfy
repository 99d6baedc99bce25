// The pixels each drawing call touches, and what they amount to on the picture.
module Shapes {
  import opened Wrappers
  import opened Geometry
  import opened DriverModel

  // ---- Rectangles -----------------------------------------------------

  function Span(x: nat, xEnd: nat, y: nat): seq<Point>
    requires xEnd <= 0xFFFF && y <= 0xFFFF
    decreases xEnd - x
  {
    if x < xEnd then [Point(x, y)] + Span(x + 1, xEnd, y) else []
  }

  function Rect(x: nat, xEnd: nat, y: nat, yEnd: nat): seq<Point>
    requires xEnd <= 0xFFFF && yEnd <= 0xFFFF
    decreases yEnd - y
  {
    if y < yEnd then Span(x, xEnd, y) + Rect(x, xEnd, y + 1, yEnd) else []
  }

  lemma {:induction false} SpanMembers(x: nat, xEnd: nat, y: nat, q: Point)
    requires xEnd <= 0xFFFF && y <= 0xFFFF
    ensures q in Span(x, xEnd, y) <==> q.y == y && x <= q.x < xEnd
    decreases xEnd - x
  {
    if x < xEnd {
      SpanMembers(x + 1, xEnd, y, q);
      assert q == Point(x, y) <==> q.x == x && q.y == y;
    }
  }

  lemma {:induction false} RectMembers(x: nat, xEnd: nat, y: nat, yEnd: nat, q: Point)
    requires xEnd <= 0xFFFF && yEnd <= 0xFFFF
    ensures q in Rect(x, xEnd, y, yEnd) <==> x <= q.x < xEnd && y <= q.y < yEnd
    decreases yEnd - y
  {
    if y < yEnd {
      SpanMembers(x, xEnd, y, q);
      RectMembers(x, xEnd, y + 1, yEnd, q);
    }
  }

  /** A sixteen-bit counter stepping from `from` while below `from + len` stops at all
      exactly when the bound itself fits sixteen bits. */
  lemma CounterStopsIff(from: U16, len: U16)
    ensures (exists n :: CounterStopped(from, len, n)) <==> from + len <= 0xFFFF
  {
    if from + len <= 0xFFFF {
      assert CounterStopped(from, len, len);
    }
  }

  predicate CounterStopped(from: U16, len: U16, steps: nat) {
    Wrap16(from + steps) >= from + len
  }

  /** When fill_rect ends: both counters stop, and the inner one only matters if a row is entered. */
  predicate FillRectEnds(x: U16, y: U16, w: U16, h: U16) {
    y + h <= 0xFFFF && (h == 0 || x + w <= 0xFFFF)
  }

  // ---- Ordered dither -------------------------------------------------

  const BAYER4: seq<nat> := [8, 136, 40, 168, 200, 72, 232, 104, 56, 184, 24, 152, 248, 120, 216, 88]

  predicate DitherOn(x: nat, y: nat, level: nat) {
    level <= BAYER4[(y % 4) * 4 + x % 4]
  }

  // The pattern of one level, as a function of position.
  function Pattern(level: nat): (nat, nat) -> bool {
    (x: nat, y: nat) => DitherOn(x, y, level)
  }

  function DitherSpan(x: nat, xEnd: nat, y: nat, on: (nat, nat) -> bool): seq<Point>
    requires y < HEIGHT
    decreases xEnd - x
  {
    if x < xEnd && x < WIDTH
    then (if on(x, y) then [Point(x, y)] else []) + DitherSpan(x + 1, xEnd, y, on)
    else []
  }

  function DitherRows(x: nat, xEnd: nat, y: nat, yEnd: nat, on: (nat, nat) -> bool): seq<Point>
    decreases yEnd - y
  {
    if y < yEnd && y < HEIGHT
    then DitherSpan(x, xEnd, y, on) + DitherRows(x, xEnd, y + 1, yEnd, on)
    else []
  }

  function Dither(x: nat, y: nat, w: nat, h: nat, level: nat): seq<Point> {
    if level >= 249 then [] else DitherRows(x, x + w, y, y + h, Pattern(level))
  }

  lemma {:induction false} DitherSpanMembers(x: nat, xEnd: nat, y: nat, on: (nat, nat) -> bool, q: Point)
    requires y < HEIGHT
    ensures q in DitherSpan(x, xEnd, y, on) <==> q.y == y && x <= q.x < xEnd && q.x < WIDTH && on(q.x, q.y)
    decreases xEnd - x
  {
    if x < xEnd && x < WIDTH {
      DitherSpanMembers(x + 1, xEnd, y, on, q);
      assert q == Point(x, y) <==> q.x == x && q.y == y;
    }
  }

  lemma {:induction false} DitherRowsMembers(x: nat, xEnd: nat, y: nat, yEnd: nat, on: (nat, nat) -> bool, q: Point)
    ensures q in DitherRows(x, xEnd, y, yEnd, on)
       <==> x <= q.x < xEnd && y <= q.y < yEnd && OnPanel(q) && on(q.x, q.y)
    decreases yEnd - y
  {
    if y < yEnd && y < HEIGHT {
      DitherSpanMembers(x, xEnd, y, on, q);
      DitherRowsMembers(x, xEnd, y + 1, yEnd, on, q);
    }
  }

  /** Adjacent fills with one pattern blacken exactly what a single fill of the union would: the
      pattern is a function of position alone, so no seam shows. */
  lemma DitherTilesSeamlessly(x: nat, xMid: nat, xEnd: nat, y: nat, yEnd: nat, on: (nat, nat) -> bool, q: Point)
    requires x <= xMid <= xEnd
    ensures q in DitherRows(x, xEnd, y, yEnd, on)
       <==> q in DitherRows(x, xMid, y, yEnd, on) || q in DitherRows(xMid, xEnd, y, yEnd, on)
  {
    DitherRowsMembers(x, xEnd, y, yEnd, on, q);
    DitherRowsMembers(x, xMid, y, yEnd, on, q);
    DitherRowsMembers(xMid, xEnd, y, yEnd, on, q);
  }

  // ---- What the texture looks like ------------------------------------

  /** The order in which the recursive Bayer square takes its cells: the place within a square of two counts
      fourfold, the place of that square once; each takes the falling diagonal first. */
  function Rank(x: nat, y: nat): nat {
    4 * Corner(x % 2 == 1, y % 2 == 1) + Corner(x % 4 >= 2, y % 4 >= 2)
  }

  function Corner(right: bool, low: bool): nat {
    if right == low then (if right then 1 else 0) else if right then 2 else 3
  }

  lemma Quarter(x: nat)
    ensures x % 4 % 2 == x % 2 && x % 4 % 4 == x % 4
  {
  }

  lemma RankRepeats(x: nat, y: nat)
    ensures Rank(x, y) == Rank(x % 4, y % 4)
  {
    Quarter(x);
    Quarter(y);
  }

  lemma RankTable()
    ensures Rank(0, 0) == 0 && Rank(1, 0) == 8 && Rank(2, 0) == 2 && Rank(3, 0) == 10
    ensures Rank(0, 1) == 12 && Rank(1, 1) == 4 && Rank(2, 1) == 14 && Rank(3, 1) == 6
    ensures Rank(0, 2) == 3 && Rank(1, 2) == 11 && Rank(2, 2) == 1 && Rank(3, 2) == 9
    ensures Rank(0, 3) == 15 && Rank(1, 3) == 7 && Rank(2, 3) == 13 && Rank(3, 3) == 5
  {
  }

  lemma TableIsRank(a: nat, b: nat)
    requires a < 4 && b < 4
    ensures BAYER4[b * 4 + a] == 8 + 16 * Rank(a, b)
  {
    hide Rank;
    RankTable();
    match b
    case 0 =>
    case 1 =>
    case 2 =>
    case _ =>
  }

  lemma ThresholdIsRank(x: nat, y: nat, level: nat)
    ensures DitherOn(x, y, level) <==> level <= 8 + 16 * Rank(x, y)
  {
    hide Rank, BAYER4;
    TableIsRank(x % 4, y % 4);
    RankRepeats(x, y);
  }

  /** Which pixels a fill blackens: those of the rectangle, on the panel, whose rank the level does not pass. */
  lemma DitherMembers(x: nat, y: nat, w: nat, h: nat, level: nat, q: Point)
    ensures q in Dither(x, y, w, h, level)
       <==> level < 249 && x <= q.x < x + w && y <= q.y < y + h && q.x < 400 && q.y < 240 && level <= 8 + 16 * Rank(q.x, q.y)
  {
    hide DitherRows, DitherOn, Rank;
    DitherRowsMembers(x, x + w, y, y + h, Pattern(level), q);
    ThresholdIsRank(q.x, q.y, level);
  }

  /** A darker fill blackens every pixel a lighter one does. */
  lemma DarkerBlackensMore(x: nat, y: nat, w: nat, h: nat, darker: nat, lighter: nat, q: Point)
    requires darker <= lighter && q in Dither(x, y, w, h, lighter)
    ensures q in Dither(x, y, w, h, darker)
  {
    hide Dither;
    DitherMembers(x, y, w, h, lighter, q);
    DitherMembers(x, y, w, h, darker, q);
  }

  function NextFour(x: nat): (n: nat)
    ensures x <= n < x + 4 && n % 4 == 0
  {
    x + (4 - x % 4) % 4
  }

  /** The darkest levels leave nothing of a rectangle out, and on any rectangle with a whole square only they. */
  lemma BlackIsSolidIff(x: nat, y: nat, w: nat, h: nat, level: nat)
    ensures level <= 8 ==> Solid(Dither(x, y, w, h, level), x, y, w, h)
    ensures x + 4 <= 400 && y + 4 <= 240 && w >= 4 && h >= 4 && Solid(Dither(x, y, w, h, level), x, y, w, h) ==> level <= 8
  {
    hide Dither;
    forall q: Point
      ensures level <= 8 ==> (q in Dither(x, y, w, h, level) <==> x <= q.x < x + w && y <= q.y < y + h && q.x < 400 && q.y < 240)
    {
      DitherMembers(x, y, w, h, level, q);
    }
    if level > 8 && x + 4 <= 400 && y + 4 <= 240 {
      // The one pixel of rank zero in the first square.
      var q := Point(NextFour(x), NextFour(y));
      DitherMembers(x, y, w, h, level, q);
    }
  }

  /** The points are the rectangle's, as much of it as is on the panel. */
  ghost predicate Solid(points: seq<Point>, x: nat, y: nat, w: nat, h: nat) {
    forall q: Point :: q in points <==> x <= q.x < x + w && y <= q.y < y + h && q.x < 400 && q.y < 240
  }

  /** Half grey is a checkerboard. */
  lemma HalfIsAChequer(x: nat, y: nat, w: nat, h: nat, level: nat, q: Point)
    requires 120 < level <= 136 && x <= q.x < x + w && y <= q.y < y + h && q.x < 400 && q.y < 240
    ensures q in Dither(x, y, w, h, level) <==> (q.x + q.y) % 2 == 1
  {
    hide Dither;
    DitherMembers(x, y, w, h, level, q);
  }

  function One(b: bool): nat { if b then 1 else 0 }

  function FourAt(points: seq<Point>, x: nat, y: nat): nat
    requires x + 4 <= 400 && y < 240
  {
    One(Point(x, y) in points) + One(Point(x + 1, y) in points) + One(Point(x + 2, y) in points) + One(Point(x + 3, y) in points)
  }

  /** How many pixels of the four-by-four square at (x, y) are among the points. */
  function SixteenAt(points: seq<Point>, x: nat, y: nat): nat
    requires x + 4 <= 400 && y + 4 <= 240
  {
    FourAt(points, x, y) + FourAt(points, x, y + 1) + FourAt(points, x, y + 2) + FourAt(points, x, y + 3)
  }

  // Four ranks of one row of the square.
  function RankRow(y: nat, level: nat): nat {
    One(level <= 8 + 16 * Rank(0, y)) + One(level <= 8 + 16 * Rank(1, y))
    + One(level <= 8 + 16 * Rank(2, y)) + One(level <= 8 + 16 * Rank(3, y))
  }

  lemma CellHolds(x: nat, y: nat, w: nat, h: nat, level: nat, a: nat, b: nat)
    requires x <= a < x + w && a < 400 && y <= b < y + h && b < 240 && level < 249
    ensures Point(a, b) in Dither(x, y, w, h, level) <==> level <= 8 + 16 * Rank(a % 4, b % 4)
  {
    hide Dither, Rank;
    DitherMembers(x, y, w, h, level, Point(a, b));
    RankRepeats(a, b);
  }

  lemma FourAnywhere(x: nat, y: nat, w: nat, h: nat, level: nat, a: nat, b: nat)
    requires x <= a && a + 4 <= x + w && a + 4 <= 400 && y <= b < y + h && b < 240 && level < 249
    ensures FourAt(Dither(x, y, w, h, level), a, b) == RankRow(b % 4, level)
  {
    hide Dither, Rank;
    CellHolds(x, y, w, h, level, a, b);
    CellHolds(x, y, w, h, level, a + 1, b);
    CellHolds(x, y, w, h, level, a + 2, b);
    CellHolds(x, y, w, h, level, a + 3, b);
    match a % 4
    case 0 => assert (a + 1) % 4 == 1 && (a + 2) % 4 == 2 && (a + 3) % 4 == 3;
    case 1 => assert (a + 1) % 4 == 2 && (a + 2) % 4 == 3 && (a + 3) % 4 == 0;
    case 2 => assert (a + 1) % 4 == 3 && (a + 2) % 4 == 0 && (a + 3) % 4 == 1;
    case _ => assert (a + 1) % 4 == 0 && (a + 2) % 4 == 1 && (a + 3) % 4 == 2;
  }

  lemma RankRows(level: nat)
    ensures RankRow(0, level) + RankRow(1, level) + RankRow(2, level) + RankRow(3, level)
         == if level <= 8 then 16 else if level < 249 then 16 - (level + 7) / 16 else 0
  {
    hide Rank;
    RankTable();
  }

  /** Every four-by-four square inside the rectangle, wherever it lies, holds as much ink as the level asks for. */
  lemma SquaresHold(x: nat, y: nat, w: nat, h: nat, level: nat, a: nat, b: nat)
    requires x <= a && a + 4 <= x + w && a + 4 <= 400 && y <= b && b + 4 <= y + h && b + 4 <= 240
    ensures SixteenAt(Dither(x, y, w, h, level), a, b)
         == if level <= 8 then 16 else if level < 249 then 16 - (level + 7) / 16 else 0
  {
    hide FourAt, RankRow;
    if level < 249 {
      hide Dither;
      FourAnywhere(x, y, w, h, level, a, b);
      FourAnywhere(x, y, w, h, level, a, b + 1);
      FourAnywhere(x, y, w, h, level, a, b + 2);
      FourAnywhere(x, y, w, h, level, a, b + 3);
      RankRows(level);
      match b % 4
      case 0 => assert (b + 1) % 4 == 1 && (b + 2) % 4 == 2 && (b + 3) % 4 == 3;
      case 1 => assert (b + 1) % 4 == 2 && (b + 2) % 4 == 3 && (b + 3) % 4 == 0;
      case 2 => assert (b + 1) % 4 == 3 && (b + 2) % 4 == 0 && (b + 3) % 4 == 1;
      case _ => assert (b + 1) % 4 == 0 && (b + 2) % 4 == 1 && (b + 3) % 4 == 2;
    } else {
      NoneAt(a, b);
    }
  }

  lemma NoneAt(a: nat, b: nat)
    requires a + 4 <= 400 && b + 4 <= 240
    ensures SixteenAt([], a, b) == 0
  {
  }
}

/** Body-face text at any integer scale, as pixels. */
module TextShapes {
  import opened Wrappers
  import opened Bits
  import opened Geometry
  import opened DriverModel

  const FONT_W := 6
  const FONT_INK_W := 7
  const FONT_H := 13

  type Glyph = g: seq<bv8> | |g| == FONT_H witness seq(FONT_H, _ => 0)

  /** The body face: which glyph, if any, a codepoint has. */
  datatype Face = Face(glyph: bv32 -> Option<Glyph>)

  const MISSING_BOX: Glyph := [0, 0, 0, 0, 0x78, 0x48, 0x48, 0x48, 0x48, 0x48, 0x78, 0, 0]

  // One source pixel blown up to k by k; sixteen-bit coordinates wrap.
  function BlockRow(x: int, y: int, k: nat, sx: nat): seq<Point>
    decreases x, k - sx
  {
    if sx < k then [Point(Wrap16(x + sx), Wrap16(y))] + BlockRow(x, y, k, sx + 1) else []
  }

  function Block(x: int, y: int, k: nat, sy: nat): seq<Point>
    decreases x, k - sy
  {
    if sy < k then BlockRow(x, y + sy, k, 0) + Block(x, y, k, sy + 1) else []
  }

  // The columns from `col` on, the first of them at x; the rows from `row` on, the first at y.
  function GlyphRow(bits: bv8, x: int, y: int, k: nat, col: nat): seq<Point>
    decreases bits, FONT_INK_W - col
  {
    if col < FONT_INK_W
    then (if bits & PixelMask(col) != 0 then Block(x, y, k, 0) else []) + GlyphRow(bits, x + k, y, k, col + 1)
    else []
  }

  function GlyphRows(g: Glyph, x: int, y: int, k: nat, row: nat): seq<Point>
    decreases g, FONT_H - row
  {
    if row < FONT_H then GlyphRow(g[row], x, y, k, 0) + GlyphRows(g, x, y + k, k, row + 1) else []
  }

  /** Unscaled text boxes a missing glyph; scaled text leaves a hole. Both advance. */
  function CellPoints(face: Face, cp: bv32, x: int, y: int, k: nat): seq<Point> {
    match face.glyph(cp)
    case Some(g) => GlyphRows(g, x, y, k, 0)
    case None => if k <= 1 then GlyphRows(MISSING_BOX, x, y, k, 0) else []
  }

  function TextPoints(face: Face, cps: seq<bv32>, x: U16, y: U16, k: nat): seq<Point> {
    if cps == [] then []
    else CellPoints(face, cps[0], x, y, k) + TextPoints(face, cps[1..], Wrap16(x + FONT_W * k), y, k)
  }
}
