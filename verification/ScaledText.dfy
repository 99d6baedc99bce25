// Scaled text is a blow-up of unscaled text, exactly as long as the pen does not wrap.
module ScaledText {
  import opened Wrappers
  import opened Bits
  import opened Geometry
  import opened DriverModel
  import opened TextShapes
  import opened Arith

  predicate AllExist(face: Face, cps: seq<bv32>) {
    forall i :: 0 <= i < |cps| ==> face.glyph(cps[i]).Some?
  }

  /** Text drawn at the origin of a white picture. */
  function Picture(face: Face, cps: seq<bv32>, k: nat): Image {
    PlotAll(Driver(White(), AllDirty(), false), TextPoints(face, cps, 0, 0, k), true).fb
  }

  // The source pixel a scaled pixel shows.
  function Source(p: Point, k: nat): Point
    requires k >= 1
  {
    QuotientAtMost(p.x, k);
    QuotientAtMost(p.y, k);
    Point(p.x / k, p.y / k)
  }

  /** Over the visible panel, pixel (X, Y) at scale k is black exactly when (X/k, Y/k) is at scale 1. */
  ghost predicate BlowUp(face: Face, cps: seq<bv32>, k: nat)
    requires k >= 1
  {
    forall p: Point :: OnPanel(p) ==>
      (Ink(Picture(face, cps, k), p) <==> Ink(Picture(face, cps, 1), Source(p, k)))
  }

  /** The last glyph's ink ends within sixteen bits. */
  predicate PenFits(n: nat, k: nat) {
    n == 0 || 6 * k * (n - 1) + 7 * k <= 0x1_0000
  }

  // ---- Which cell of the unscaled grid is black -----------------------

  // A missing glyph is boxed or left out.
  predicate CellInk(face: Face, cp: bv32, x: nat, y: nat, boxed: bool) {
    match face.glyph(cp)
    case Some(g) => RowInk(g, y, x)
    case None => boxed && RowInk(MISSING_BOX, y, x)
  }

  // Seven columns of ink against an advance of six: neighbours may both claim a column.
  predicate TextInk(face: Face, cps: seq<bv32>, x: nat, y: nat, boxed: bool)
    decreases |cps|
  {
    cps != [] && (CellInk(face, cps[0], x, y, boxed) || (x >= 6 && TextInk(face, cps[1..], x - 6, y, boxed)))
  }

  // ---- Counting in steps of k -----------------------------------------
  // Multiplication and division by the scale, as the repeated addition the drawing loops perform.

  function Times(n: nat, k: nat): nat {
    if n == 0 then 0 else k + Times(n - 1, k)
  }

  function Steps(a: nat, k: nat): nat
    requires k >= 1
  {
    if a < k then 0 else 1 + Steps(a - k, k)
  }

  lemma {:induction false} TimesIsProduct(n: nat, k: nat)
    ensures Times(n, k) == n * k
  {
    if n > 0 {
      TimesIsProduct(n - 1, k);
      assert n * k == k + (n - 1) * k;
    }
  }

  lemma {:induction false} StepsIsQuotient(a: nat, k: nat)
    requires k >= 1
    ensures Steps(a, k) == a / k
  {
    if a >= k {
      StepsIsQuotient(a - k, k);
      assert a / k == (a - k) / k + 1 by {
        var q, r := (a - k) / k, (a - k) % k;
        assert a == (q + 1) * k + r by { assert (q + 1) * k == q * k + k; }
        Quotient(a, k, q + 1);
      }
    }
  }

  lemma SixSteps(a: nat, k: nat)
    requires k >= 1
    ensures Steps(a, k) >= 6 <==> a >= 6 * k
    ensures a >= 6 * k ==> Steps(a, k) == 6 + Steps(a - 6 * k, k)
  {
    if a >= 3 * k {
      ThreeSteps(a, k);
      ThreeSteps(a - 3 * k, k);
    } else {
      ThreeSteps(a, k);
    }
  }

  lemma ThreeSteps(a: nat, k: nat)
    requires k >= 1
    ensures Steps(a, k) >= 3 <==> a >= 3 * k
    ensures a >= 3 * k ==> Steps(a, k) == 3 + Steps(a - 3 * k, k)
  {
    if a >= k {
      var b := a - k;
      if b >= k {
        var c := b - k;
        assert Steps(b, k) == 1 + Steps(c, k);
        assert Steps(a, k) == 2 + Steps(c, k);
        if c >= k {
          assert Steps(c, k) == 1 + Steps(c - k, k);
        }
      }
    }
  }

  lemma {:induction false} StepsShrink(a: nat, k: nat)
    requires k >= 1
    ensures Steps(a, k) <= a && Steps(a, 1) == a
  {
    if a >= k {
      StepsShrink(a - k, k);
    }
    if a >= 1 {
      StepsShrink(a - 1, k);
    }
  }

  // ---- Membership -----------------------------------------------------

  lemma {:induction false} BlockRowMembers(x: int, y: int, k: nat, sx: nat, q: Point)
    requires 0 <= x && x + k <= 0x1_0000 && 0 <= y < 0x1_0000 && sx <= k
    ensures q in BlockRow(x, y, k, sx) <==> q.y == y && x + sx <= q.x < x + k
    decreases k - sx
  {
    if sx < k {
      BlockRowMembers(x, y, k, sx + 1, q);
      assert q == Point(Wrap16(x + sx), Wrap16(y)) <==> q.x == x + sx && q.y == y;
    }
  }

  lemma {:induction false} BlockMembers(x: int, y: int, k: nat, sy: nat, q: Point)
    requires 0 <= x && x + k <= 0x1_0000 && 0 <= y && y + k <= 0x1_0000 && sy <= k
    ensures q in Block(x, y, k, sy) <==> x <= q.x < x + k && y + sy <= q.y < y + k
    decreases k - sy
  {
    if sy < k {
      BlockRowMembers(x, y + sy, k, 0, q);
      BlockMembers(x, y, k, sy + 1, q);
    }
  }

  predicate ColumnInk(bits: bv8, col: nat) {
    col < 7 && bits & PixelMask(col) != 0
  }

  lemma GlyphRowStep(bits: bv8, x: int, y: int, k: nat, col: nat)
    requires col < 7
    ensures GlyphRow(bits, x, y, k, col)
         == (if ColumnInk(bits, col) then Block(x, y, k, 0) else []) + GlyphRow(bits, x + k, y, k, col + 1)
  {
  }

  lemma {:induction false} GlyphRowMembers(bits: bv8, x: nat, y: int, k: nat, col: nat, q: Point)
    requires k >= 1 && col <= 7 && x + Times(7 - col, k) <= 0x1_0000
    requires 0 <= y && y + k <= 0x1_0000
    ensures q in GlyphRow(bits, x, y, k, col)
       <==> q.x >= x && ColumnInk(bits, col + Steps(q.x - x, k)) && y <= q.y < y + k
    decreases 7 - col
  {
    hide PixelMask;
    if col < 7 {
      GlyphRowStep(bits, x, y, k, col);
      GlyphRowMembers(bits, x + k, y, k, col + 1, q);
      BlockMembers(x, y, k, 0, q);
    }
  }

  predicate RowInk(g: Glyph, row: nat, col: nat) {
    row < FONT_H && ColumnInk(g[row], col)
  }

  lemma {:induction false} GlyphRowsMembers(g: Glyph, x: nat, y: nat, k: nat, row: nat, q: Point)
    requires k >= 1 && row <= 13 && x + Times(7, k) <= 0x1_0000 && y + Times(13 - row, k) <= 0x1_0000
    ensures q in GlyphRows(g, x, y, k, row)
       <==> q.x >= x && q.y >= y && RowInk(g, row + Steps(q.y - y, k), Steps(q.x - x, k))
    decreases 13 - row
  {
    hide PixelMask, ColumnInk, GlyphRow, Block, OnPanel;
    if row < 13 {
      GlyphRowsMembers(g, x, y + k, k, row + 1, q);
      GlyphRowMembers(g[row], x, y, k, 0, q);
      GlyphRowsStep(g, x, y, k, row, q);
      if q.y >= y + k {
        assert Steps(q.y - y, k) == 1 + Steps(q.y - (y + k), k);
      }
    }
  }

  lemma GlyphRowsStep(g: Glyph, x: nat, y: nat, k: nat, row: nat, q: Point)
    requires row < 13
    ensures q in GlyphRows(g, x, y, k, row)
       <==> q in GlyphRow(g[row], x, y, k, 0) || q in GlyphRows(g, x, y + k, k, row + 1)
  {
  }

  lemma CellMembers(face: Face, cp: bv32, x: U16, k: nat, q: Point)
    requires k >= 1 && x + Times(7, k) <= 0x1_0000 && Times(13, k) <= 0x1_0000
    ensures q in CellPoints(face, cp, x, 0, k) <==> q.x >= x && CellInk(face, cp, Steps(q.x - x, k), Steps(q.y, k), k == 1)
  {
    hide RowInk, GlyphRows, Steps, Times;
    GlyphRowsMembers(match face.glyph(cp) case Some(g) => g case None => MISSING_BOX, x, 0, k, 0, q);
  }

  lemma {:induction false} TextMembers(face: Face, cps: seq<bv32>, x: U16, k: nat, q: Point)
    requires 1 <= k < 256 && Times(13, k) <= 0x1_0000
    requires cps != [] ==> x + Times(|cps| - 1, 6 * k) + Times(7, k) <= 0x1_0000
    ensures q in TextPoints(face, cps, x, 0, k) <==> q.x >= x && TextInk(face, cps, Steps(q.x - x, k), Steps(q.y, k), k == 1)
    decreases |cps|
  {
    hide CellPoints, CellInk, TextPoints;
    if cps == [] {
      NoText(face, x, k);
    } else {
      CellMembers(face, cps[0], x, k, q);
      if q.x >= x {
        SixSteps(q.x - x, k);
      }
      if |cps| > 1 {
        TextMembers(face, cps[1..], x + 6 * k, k, q);
      } else {
        assert cps[1..] == [];
        NoText(face, Wrap16(x + 6 * k), k);
      }
      TextStep(face, cps, x, k, q);
    }
  }

  lemma NoText(face: Face, x: U16, k: nat)
    ensures TextPoints(face, [], x, 0, k) == []
  {
  }

  lemma TextStep(face: Face, cps: seq<bv32>, x: U16, k: nat, q: Point)
    requires cps != []
    ensures q in TextPoints(face, cps, x, 0, k)
       <==> q in CellPoints(face, cps[0], x, 0, k) || q in TextPoints(face, cps[1..], Wrap16(x + 6 * k), 0, k)
  {
  }

  lemma PictureInk(face: Face, cps: seq<bv32>, k: nat, p: Point)
    ensures Ink(Picture(face, cps, k), p) <==> p in TextPoints(face, cps, 0, 0, k) && OnPanel(p)
  {
    PlotAllInk(Driver(White(), AllDirty(), false), TextPoints(face, cps, 0, 0, k), p, true);
    if OnPanel(p) {
      WhiteByteHasNoInk(p.x);
    }
  }

  // ---- Missing glyphs -------------------------------------------------

  /** The box of the i-th codepoint, missing from the font, would reach the panel at this scale. */
  predicate BoxShows(face: Face, cps: seq<bv32>, k: nat, i: nat)
    requires i < |cps|
  {
    face.glyph(cps[i]).None? && k * (6 * i + 1) < WIDTH && k * 4 < HEIGHT
  }

  predicate NoBoxShows(face: Face, cps: seq<bv32>, k: nat) {
    forall i :: 0 <= i < |cps| ==> !BoxShows(face, cps, k, i)
  }

  /** The box of some missing glyph covers (x, y) of the unscaled grid. */
  predicate BoxAt(face: Face, cps: seq<bv32>, x: nat, y: nat)
    decreases |cps|
  {
    cps != [] && ((face.glyph(cps[0]).None? && RowInk(MISSING_BOX, y, x)) || (x >= 6 && BoxAt(face, cps[1..], x - 6, y)))
  }

  lemma {:induction false} BoxesAdd(face: Face, cps: seq<bv32>, x: nat, y: nat)
    ensures TextInk(face, cps, x, y, true) <==> TextInk(face, cps, x, y, false) || BoxAt(face, cps, x, y)
    decreases |cps|
  {
    hide RowInk;
    if cps != [] && x >= 6 {
      BoxesAdd(face, cps[1..], x - 6, y);
    }
  }

  lemma BoxShape(y: nat, x: nat)
    ensures RowInk(MISSING_BOX, y, x) ==> 1 <= x <= 4 && y >= 4
    ensures RowInk(MISSING_BOX, 4, 1)
  {
    if y < FONT_H && x < 7 && (x == 0 || x > 4) {
      assert MISSING_BOX[y] in {0, 0x78, 0x48};
    }
  }

  lemma {:induction false} BoxFrom(face: Face, cps: seq<bv32>, x: nat, y: nat) returns (i: nat)
    requires BoxAt(face, cps, x, y)
    ensures i < |cps| && face.glyph(cps[i]).None? && 6 * i + 1 <= x && 4 <= y
    decreases |cps|
  {
    hide RowInk;
    BoxShape(y, x);
    if face.glyph(cps[0]).None? && RowInk(MISSING_BOX, y, x) {
      i := 0;
    } else {
      i := BoxFrom(face, cps[1..], x - 6, y);
      i := i + 1;
    }
  }

  // Its left edge is black, and no neighbour's ink reaches that far.
  lemma {:induction false} LoneBox(face: Face, cps: seq<bv32>, i: nat)
    requires i < |cps| && face.glyph(cps[i]).None?
    ensures BoxAt(face, cps, 6 * i + 1, 4) && !TextInk(face, cps, 6 * i + 1, 4, false)
    decreases i
  {
    hide ColumnInk;
    BoxShape(4, 1);
    if i > 0 {
      LoneBox(face, cps[1..], i - 1);
      NoInkBeyond(face, cps[0], 6 * i + 1);
    }
  }

  lemma NoInkBeyond(face: Face, cp: bv32, x: nat)
    requires x >= 7
    ensures !CellInk(face, cp, x, 4, false)
  {
  }

  /** While the pen fits, scaled text is a blow-up of unscaled text exactly when no missing glyph's box would
      reach the panel: the box is drawn unscaled, and scaled there is a hole. */
  lemma BlowUpIff(face: Face, cps: seq<bv32>, k: nat)
    requires 2 <= k < 256 && PenFits(|cps|, k)
    ensures BlowUp(face, cps, k) <==> NoBoxShows(face, cps, k)
  {
    hide Picture, Ink, BoxShows;
    if NoBoxShows(face, cps, k) {
      forall p: Point | OnPanel(p)
        ensures Ink(Picture(face, cps, k), p) <==> Ink(Picture(face, cps, 1), Source(p, k))
      {
        BlowUpAt(face, cps, k, p);
      }
    } else {
      var i :| 0 <= i < |cps| && BoxShows(face, cps, k, i);
      var p := HoleAt(face, cps, k, i);
      assert !BlowUp(face, cps, k);
    }
  }

  lemma HoleAt(face: Face, cps: seq<bv32>, k: nat, i: nat) returns (p: Point)
    requires 2 <= k < 256 && PenFits(|cps|, k) && i < |cps| && BoxShows(face, cps, k, i)
    ensures OnPanel(p) && !Ink(Picture(face, cps, k), p) && Ink(Picture(face, cps, 1), Source(p, k))
  {
    hide TextInk, Picture, Ink, BoxAt, OnPanel;
    p := Point(k * (6 * i + 1), k * 4);
    assert OnPanel(p) by { BoxOnPanel(p); }
    InStep(6 * i + 1, k);
    InStep(4, k);
    LoneBox(face, cps, i);
    BoxesAdd(face, cps, 6 * i + 1, 4);
    PixelCells(face, cps, k, p);
  }

  lemma BoxOnPanel(p: Point)
    requires p.x < WIDTH && p.y < HEIGHT
    ensures OnPanel(p)
  {
  }

  lemma InStep(a: nat, k: nat)
    requires k >= 1
    ensures k * a / k == a
  {
    Cancels(k, a);
  }

  /** The two pixels in terms of the cells they show. */
  lemma PixelCells(face: Face, cps: seq<bv32>, k: nat, p: Point)
    requires 2 <= k < 256 && PenFits(|cps|, k) && OnPanel(p)
    ensures var q := Source(p, k);
      && (Ink(Picture(face, cps, k), p) <==> TextInk(face, cps, q.x, q.y, false))
      && (Ink(Picture(face, cps, 1), q) <==> TextInk(face, cps, q.x, q.y, true))
  {
    hide TextInk, Picture, Ink;
    StepsIsQuotient(p.x, k);
    StepsIsQuotient(p.y, k);
    StepsShrink(p.x, k);
    StepsShrink(p.y, k);
    PictureCells(face, cps, k, p);
    var q := Source(p, k);
    PenFitsUnscaled(|cps|, k);
    StepsShrink(q.x, 1);
    StepsShrink(q.y, 1);
    PictureCells(face, cps, 1, q);
  }

  /** So while the pen fits and every glyph exists. */
  lemma FittingTextBlowsUp(face: Face, cps: seq<bv32>, k: nat)
    requires 1 <= k < 256 && AllExist(face, cps) && PenFits(|cps|, k)
    ensures BlowUp(face, cps, k)
  {
    if k > 1 {
      hide BlowUp, PenFits;
      BlowUpIff(face, cps, k);
    } else {
      Unscaled(face, cps);
    }
  }

  lemma Unscaled(face: Face, cps: seq<bv32>)
    ensures BlowUp(face, cps, 1)
  {
    hide Picture, Ink;
    forall p: Point | OnPanel(p)
      ensures Source(p, 1) == p
    {
      assert p.x / 1 == p.x && p.y / 1 == p.y;
    }
  }

  /** One missing codepoint alone: up to the scale at which its box leaves the panel, a box unscaled and
      nothing scaled. */
  lemma MissingGlyphIff(face: Face, cp: bv32, k: nat)
    requires 2 <= k < 256 && face.glyph(cp).None?
    ensures BlowUp(face, [cp], k) <==> k >= 60
  {
    hide BlowUp;
    BlowUpIff(face, [cp], k);
    assert BoxShows(face, [cp], k, 0) <==> k < 60;
  }

  lemma BlowUpAt(face: Face, cps: seq<bv32>, k: nat, p: Point)
    requires 2 <= k < 256 && NoBoxShows(face, cps, k) && PenFits(|cps|, k) && OnPanel(p)
    ensures Ink(Picture(face, cps, k), p) <==> Ink(Picture(face, cps, 1), Source(p, k))
  {
    hide TextInk, Picture, Ink, BoxAt;
    PixelCells(face, cps, k, p);
    var q := Source(p, k);
    BoxesAdd(face, cps, q.x, q.y);
    if BoxAt(face, cps, q.x, q.y) {
      var i := BoxReaches(face, cps, k, p);
    }
  }

  lemma BoxReaches(face: Face, cps: seq<bv32>, k: nat, p: Point) returns (i: nat)
    requires k >= 1 && OnPanel(p) && BoxAt(face, cps, Source(p, k).x, Source(p, k).y)
    ensures i < |cps| && BoxShows(face, cps, k, i)
  {
    hide BoxAt;
    var q := Source(p, k);
    i := BoxFrom(face, cps, q.x, q.y);
    Grows(6 * i + 1, q.x, k);
    Grows(4, q.y, k);
    Under(p.x, k);
    Under(p.y, k);
  }

  lemma Under(a: nat, k: nat)
    requires k >= 1
    ensures a / k * k <= a
  {
  }

  lemma PictureCells(face: Face, cps: seq<bv32>, k: nat, p: Point)
    requires 1 <= k < 256 && PenFits(|cps|, k) && OnPanel(p)
    ensures Ink(Picture(face, cps, k), p) <==> TextInk(face, cps, Steps(p.x, k), Steps(p.y, k), k == 1)
  {
    hide Ink, Picture, TextInk;
    PictureInk(face, cps, k, p);
    PenRoom(|cps|, k);
    TextMembers(face, cps, 0, k, p);
  }

  lemma PenRoom(n: nat, k: nat)
    requires 1 <= k < 256 && PenFits(n, k)
    ensures Times(13, k) <= 0x1_0000
    ensures n > 0 ==> Times(n - 1, 6 * k) + Times(7, k) <= 0x1_0000
  {
    TimesIsProduct(13, k);
    TimesIsProduct(7, k);
    if n > 0 {
      TimesIsProduct(n - 1, 6 * k);
      assert 6 * k * (n - 1) == (n - 1) * (6 * k);
    }
  }

  lemma PenFitsUnscaled(n: nat, k: nat)
    requires k >= 1 && PenFits(n, k)
    ensures PenFits(n, 1)
  {
    if n > 0 {
      Grows(1, k, 6 * (n - 1) + 7);
      assert 6 * k * (n - 1) + 7 * k == k * (6 * (n - 1) + 7);
    }
  }

  // ---- The bound is tight ---------------------------------------------

  // Ink for one codepoint, blanks for every other.
  function OneInked(): Face {
    Face((cp: bv32) => Some(Solid(if cp == 0x41 then 0xFF else 0)))
  }

  function Solid(bits: bv8): Glyph {
    seq(FONT_H, _ => bits)
  }

  function Lone(n: nat, i: nat): seq<bv32> {
    seq(n, (j: nat) => if j == i then 0x41 else 0x20)
  }

  // Dropping the leading blanks of a string drops their advances.
  lemma {:induction false} LoneHasOrigin(n: nat, i: nat, x: U16, k: nat)
    requires i < n && 1 <= k < 256
    requires x + Times(i, 6 * k) <= 0xFFFF && 0x1_0000 < x + Times(i, 6 * k) + Times(7, k)
    ensures Point(0, 0) in TextPoints(OneInked(), Lone(n, i), x, 0, k)
    decreases i
  {
    hide GlyphRow, GlyphRows;
    var cps := Lone(n, i);
    LoneCells(n, i, x, k);
    if i == 0 {
      FullRowReaches(x, k, 0);
      InFirstRow(Solid(0xFF), x, k);
    } else {
      LoneHasOrigin(n - 1, i - 1, x + 6 * k, k);
    }
  }

  lemma LoneCells(n: nat, i: nat, x: U16, k: nat)
    requires i < n
    ensures Lone(n, i) != [] && CellPoints(OneInked(), Lone(n, i)[0], x, 0, k)
         == GlyphRows(Solid(if i == 0 then 0xFF else 0), x, 0, k, 0)
    ensures i > 0 ==> Lone(n, i)[1..] == Lone(n - 1, i - 1)
    ensures i == 0 ==> forall j :: 0 <= j < n - 1 ==> Lone(n, i)[1..][j] != 0x41
  {
  }

  lemma InFirstRow(g: Glyph, x: U16, k: nat)
    requires Point(0, 0) in GlyphRow(g[0], x, 0, k, 0)
    ensures Point(0, 0) in GlyphRows(g, x, 0, k, 0)
  {
  }

  // A full row of ink that straddles the sixteen-bit boundary comes back at column zero.
  lemma {:induction false} FullRowReaches(x: nat, k: nat, col: nat)
    requires k >= 1 && col < 7 && x <= 0x1_0000 < x + Times(7 - col, k)
    ensures Point(0, 0) in GlyphRow(0xFF, x, 0, k, col)
    decreases 7 - col
  {
    hide PixelMask;
    FullMask(col);
    FullRowSplits(x, k, col);
    if 0x1_0000 - x < k {
      BlockReaches(x, k, 0, 0x1_0000 - x);
    } else {
      FullRowReaches(x + k, k, col + 1);
    }
  }

  lemma FullRowSplits(x: int, k: nat, col: nat)
    requires col < 7 && 0xFF & PixelMask(col) != 0
    ensures GlyphRow(0xFF, x, 0, k, col) == Block(x, 0, k, 0) + GlyphRow(0xFF, x + k, 0, k, col + 1)
  {
  }

  lemma FullMask(col: nat)
    ensures 0xFF & PixelMask(col) != 0
  {
    Octal(col);
  }

  lemma {:induction false} BlockReaches(x: int, k: nat, from: nat, sx: nat)
    requires from <= sx < k && x + sx == 0x1_0000
    ensures Point(0, 0) in BlockRow(x, 0, k, from)
    ensures Point(0, 0) in Block(x, 0, k, 0)
    decreases sx - from
  {
    if from < sx {
      BlockReaches(x, k, from + 1, sx);
    }
    if from != 0 {
      BlockReachesFromZero(x, k, 0, sx);
    }
  }

  lemma {:induction false} BlockReachesFromZero(x: int, k: nat, from: nat, sx: nat)
    requires from <= sx < k && x + sx == 0x1_0000
    ensures Point(0, 0) in BlockRow(x, 0, k, from)
    decreases sx - from
  {
    if from < sx {
      BlockReachesFromZero(x, k, from + 1, sx);
    }
  }

  // The first glyph whose ink crosses the sixteen-bit boundary.
  lemma {:induction false} FirstWrap(n: nat, k: nat) returns (i: nat)
    requires 2 <= k < 256 && !PenFits(n, k)
    ensures 1 <= i < n && 6 * k * i <= 0xFFFF && 0x1_0000 < 6 * k * i + 7 * k
    decreases n
  {
    if PenFits(n - 1, k) {
      i := n - 1;
      if n >= 2 {
        assert 6 * k * (n - 1) == 6 * k * (n - 2) + 6 * k;
      }
    } else {
      i := FirstWrap(n - 1, k);
    }
  }

  lemma WrappingTextFails(n: nat, k: nat)
    requires 2 <= k < 256 && !PenFits(n, k)
    ensures exists face, cps :: |cps| == n && AllExist(face, cps) && !BlowUp(face, cps, k)
  {
    var i := FirstWrap(n, k);
    TimesIsProduct(i, 6 * k);
    TimesIsProduct(7, k);
    assert 6 * k * i == i * (6 * k);
    var face, cps := OneInked(), Lone(n, i);
    var o := Point(0, 0);
    LoneHasOrigin(n, i, 0, k);
    PictureInk(face, cps, k, o);
    PictureInk(face, cps, 1, o);
    SmallLoneMisses(n, i, k);
    assert Ink(Picture(face, cps, k), o) && !Ink(Picture(face, cps, 1), Source(o, k));
    assert !BlowUp(face, cps, k);
  }

  // Unscaled, the inked glyph stands clear of column zero and so do the blanks, wrapped or not.
  lemma SmallLoneMisses(n: nat, i: nat, k: nat)
    requires 2 <= k < 256 && 1 <= i < n && 6 * k * i <= 0xFFFF
    ensures Point(0, 0) !in TextPoints(OneInked(), Lone(n, i), 0, 0, 1)
  {
    assert 6 * k * i == k * (6 * i);
    Grows(2, k, 6 * i);
    LoneMisses(n, i, 0);
  }

  lemma {:induction false} LoneMisses(n: nat, i: nat, x: U16)
    requires i < n && 1 <= x + 6 * i <= 0xFFF0
    ensures Point(0, 0) !in TextPoints(OneInked(), Lone(n, i), x, 0, 1)
    decreases i
  {
    hide GlyphRow, GlyphRows, PixelMask;
    var cps := Lone(n, i);
    var g := Solid(if i == 0 then 0xFF else 0);
    LoneCells(n, i, x, 1);
    if i == 0 {
      TimesIsProduct(7, 1);
      TimesIsProduct(13, 1);
      GlyphRowsMembers(g, x, 0, 1, 0, Point(0, 0));
      BlanksMiss(cps[1..], Wrap16(x + 6));
    } else {
      BlankRows(g, x, 0, 1, 0);
      LoneMisses(n - 1, i - 1, x + 6);
    }
  }

  lemma {:induction false} BlanksMiss(cps: seq<bv32>, x: U16)
    requires forall j :: 0 <= j < |cps| ==> cps[j] != 0x41
    ensures TextPoints(OneInked(), cps, x, 0, 1) == []
    decreases |cps|
  {
    if cps != [] {
      var g := Solid(0);
      assert OneInked().glyph(cps[0]) == Some(g);
      BlankRows(g, x, 0, 1, 0);
      BlanksMiss(cps[1..], Wrap16(x + 6));
    }
  }

  lemma {:induction false} BlankRows(g: Glyph, x: int, y: int, k: nat, row: nat)
    requires forall r :: 0 <= r < FONT_H ==> g[r] == 0
    ensures GlyphRows(g, x, y, k, row) == []
    decreases FONT_H - row
  {
    hide GlyphRow;
    if row < FONT_H {
      BlankRow(x, y, k, 0);
      BlankRows(g, x, y + k, k, row + 1);
    }
  }

  lemma {:induction false} BlankRow(x: int, y: int, k: nat, col: nat)
    ensures GlyphRow(0, x, y, k, col) == []
    decreases FONT_INK_W - col
  {
    if col < FONT_INK_W {
      BlankRow(x + k, y, k, col + 1);
    }
  }

  /** Exactly when every string of n codepoints with no box to show is blown up faithfully at scale k. */
  lemma ScaledTextIsBlowUpIff(n: nat, k: nat)
    requires 2 <= k < 256
    ensures (forall face, cps :: |cps| == n && NoBoxShows(face, cps, k) ==> BlowUp(face, cps, k)) <==> PenFits(n, k)
  {
    if PenFits(n, k) {
      forall face, cps: seq<bv32> | |cps| == n && NoBoxShows(face, cps, k)
        ensures BlowUp(face, cps, k)
      {
        BlowUpIff(face, cps, k);
      }
    } else {
      WrappingTextFails(n, k);
      AllExistShowNone(k);
    }
  }

  lemma AllExistShowNone(k: nat)
    ensures forall face, cps :: AllExist(face, cps) ==> NoBoxShows(face, cps, k)
  {
  }
  // ---- What unscaled text looks like ----------------------------------

  /** A pixel of a character's cell, counted from its corner: the leftmost of a row is the byte's highest bit; a missing
      glyph is the outline of a box, four pixels wide and seven high. */
  predicate Inked(face: Face, cp: bv32, x: int, y: int) {
    0 <= x < 7 && 0 <= y < 13 &&
    match face.glyph(cp)
    case Some(g) => g[y] & ((0x80 as bv8) >> x) != 0
    case None => Outline(x, y)
  }

  predicate Outline(x: int, y: int) {
    1 <= x <= 4 && 4 <= y <= 10 && (x == 1 || x == 4 || y == 4 || y == 10)
  }

  lemma BoxIsOutline(x: nat, y: nat)
    ensures RowInk(MISSING_BOX, y, x) <==> x < 7 && y < 13 && Outline(x, y)
  {
    if y < 13 && x < 7 {
      MasksAreShifts(x);
      assert MISSING_BOX[y] == if y == 4 || y == 10 then 0x78 else if 4 < y < 10 then 0x48 else 0;
    }
  }

  lemma RowInkIs(g: Glyph, x: nat, y: nat)
    ensures RowInk(g, y, x) <==> x < 7 && y < 13 && g[y] & ((0x80 as bv8) >> x) != 0
  {
    MasksAreShifts(x);
  }

  lemma CellPixels(face: Face, cp: bv32, x: nat, y: nat, q: Point)
    requires x + 7 <= 0x1_0000 && y + 13 <= 0x1_0000
    ensures q in CellPoints(face, cp, x, y, 1) <==> Inked(face, cp, q.x - x, q.y - y)
  {
    hide GlyphRows, RowInk, Outline;
    var g := match face.glyph(cp) case Some(g) => g case None => MISSING_BOX;
    TimesIsProduct(7, 1);
    TimesIsProduct(13, 1);
    GlyphRowsMembers(g, x, y, 1, 0, q);
    if q.x >= x && q.y >= y {
      StepsShrink(q.x - x, 1);
      StepsShrink(q.y - y, 1);
      RowInkIs(g, q.x - x, q.y - y);
      BoxIsOutline(q.x - x, q.y - y);
    }
  }

  /** Of text at (x, y), character i blackens the pixel. */
  predicate InkedAt(face: Face, cps: seq<bv32>, i: nat, x: nat, y: nat, q: Point)
    requires i < |cps|
  {
    Inked(face, cps[i], q.x - (x + 6 * i), q.y - y)
  }

  /** Text drawn at (x, y), pixel by pixel: character i in the cell six pixels on for each before it. */
  lemma {:induction false} TextPixels(face: Face, cps: seq<bv32>, x: U16, y: U16, q: Point)
    requires cps != [] && x + 6 * |cps| + 1 <= 0x1_0000 && y + 13 <= 0x1_0000
    ensures q in TextPoints(face, cps, x, y, 1) <==> exists i :: 0 <= i < |cps| && InkedAt(face, cps, i, x, y, q)
    decreases |cps|
  {
    hide CellPoints, Inked, TextPoints;
    CellPixels(face, cps[0], x, y, q);
    assert InkedAt(face, cps, 0, x, y, q) == Inked(face, cps[0], q.x - x, q.y - y);
    TextFirst(face, cps, x, y, q);
    if |cps| > 1 {
      var rest, x': U16 := cps[1..], x + 6;
      TextPixels(face, rest, x', y, q);
      if i :| 0 <= i < |rest| && InkedAt(face, rest, i, x', y, q) {
        assert InkedAt(face, cps, i + 1, x, y, q);
      }
      if i :| 1 <= i < |cps| && InkedAt(face, cps, i, x, y, q) {
        assert InkedAt(face, rest, i - 1, x', y, q);
      }
    }
  }

  lemma TextFirst(face: Face, cps: seq<bv32>, x: U16, y: U16, q: Point)
    requires cps != [] && x + 6 <= 0xFFFF
    ensures q in TextPoints(face, cps, x, y, 1)
       <==> q in CellPoints(face, cps[0], x, y, 1) || (|cps| > 1 && q in TextPoints(face, cps[1..], x + 6, y, 1))
  {
    hide CellPoints;
    assert |cps| == 1 ==> TextPoints(face, cps[1..], x + 6, y, 1) == [];
  }
}
