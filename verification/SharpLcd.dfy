// The driver itself: a framebuffer, thirty dirty bytes and a VCOM flag over a bus.
module SharpLcdDriver {
  import opened Wrappers
  import opened Arith
  import opened Bits
  import opened Geometry
  import opened Wire
  import opened PanelModel
  import opened DriverModel
  import opened VirtualPanelDecoder
  import opened Shapes
  import opened TextShapes
  import opened Utf8

  const DIRTY_BYTES := 30

  type DirtyBytes = s: seq<bv8> | |s| == DIRTY_BYTES witness seq(DIRTY_BYTES, _ => 0)

  function DirtyOf(bytes: DirtyBytes): Dirty {
    seq(HEIGHT, (y: nat) requires y < HEIGHT => BitAt(bytes[y / 8], y))
  }

  lemma MarkedDirty(bytes: DirtyBytes, y: nat)
    requires y < HEIGHT
    ensures DirtyOf(bytes[y / 8 := WithBit(bytes[y / 8], y)]) == DirtyOf(bytes)[y := true]
  {
    forall z | 0 <= z < HEIGHT && z / 8 == y / 8
      ensures BitAt(WithBit(bytes[y / 8], y), z) <==> z == y || BitAt(bytes[z / 8], z)
    {
      WithBitReads(bytes[y / 8], y, z);
    }
  }

  lemma FilledDirty(bytes: DirtyBytes)
    ensures (forall i :: 0 <= i < DIRTY_BYTES ==> bytes[i] == 0xFF) ==> DirtyOf(bytes) == AllDirty()
    ensures (forall i :: 0 <= i < DIRTY_BYTES ==> bytes[i] == 0) ==> DirtyOf(bytes) == AllClean()
  {
    forall y | 0 <= y < HEIGHT
      ensures BitAt(0xFF, y) && !BitAt(0, y)
    {
      ConstantBytes(y);
    }
  }

  /** Where the pen is after n characters, each `step` wide; its coordinate has sixteen bits. */
  function PenAfter(x: U16, n: nat, step: nat): U16 {
    Wrap16(x + n * step)
  }

  lemma WrapsOn(x: U16, step: nat, m: nat)
    ensures Wrap16(Wrap16(x + step) + m) == Wrap16(x + (step + m))
    ensures Wrap16(x) == x
  {
  }

  lemma PenAdvances(x: U16, n: nat, step: nat)
    ensures PenAfter(x, 0, step) == x
    ensures PenAfter(Wrap16(x + step), n, step) == PenAfter(x, n + 1, step)
  {
    hide Wrap16;
    Distributes(1, n, step);
    WrapsOn(x, step, n * step);
  }

  // One character of a text, and the rest of it from where it leaves the pen.
  lemma NextCharacter(d: Driver, face: Face, s: seq<bv8>, p: nat, x: U16, y: U16, k: nat, black: bool)
    requires p <= |s| && At(s, p) != 0
    ensures var (cp, q) := NextCp(s, p);
      && p < q <= |s| && |DecodeFrom(s, p)| == |DecodeFrom(s, q)| + 1
      && PlotAll(d, TextPoints(face, DecodeFrom(s, p), x, y, k), black)
      == PlotAll(PlotAll(d, CellPoints(face, cp, x, y, k), black), TextPoints(face, DecodeFrom(s, q), Wrap16(x + 6 * k), y, k), black)
  {
    hide CellPoints, PlotAll;
    NextCpAdvances(s, p);
    var (cp, q) := NextCp(s, p);
    var all := DecodeFrom(s, p);
    assert all == [cp] + DecodeFrom(s, q) && all[1..] == DecodeFrom(s, q);
    PlotAllConcat(d, CellPoints(face, cp, x, y, k), TextPoints(face, DecodeFrom(s, q), Wrap16(x + 6 * k), y, k), black);
  }

  lemma NothingMore(d: Driver, face: Face, s: seq<bv8>, p: nat, x: U16, y: U16, k: nat, black: bool)
    requires p <= |s| && At(s, p) == 0
    ensures |DecodeFrom(s, p)| == 0 && PlotAll(d, TextPoints(face, DecodeFrom(s, p), x, y, k), black) == d
  {
  }

  class SharpLcd {
    const panel: VirtualPanel
    const fb: array<bv8>
    const dirty: array<bv8>
    const face: Face
    var vcom: bool

    ghost predicate Valid()
      reads this, panel
    {
      && panel.Valid()
      && fb.Length == FB_BYTES && dirty.Length == DIRTY_BYTES
      && fb != dirty && fb != panel.img && fb != panel.tx && dirty != panel.img && dirty != panel.tx
    }

    ghost function Drv(): Driver
      reads this, panel, fb, dirty
      requires Valid()
    {
      Driver(fb[..], DirtyOf(dirty[..]), vcom)
    }

    ghost function Sys(): System
      reads this, panel, fb, dirty, panel.img, panel.tx
      requires Valid()
    {
      System(Drv(), panel.State())
    }

    /** Neither clears the caller's buffer nor marks it dirty. */
    constructor (panel: VirtualPanel, framebuffer: array<bv8>, face: Face)
      requires panel.Valid() && framebuffer.Length == FB_BYTES
      requires framebuffer != panel.img && framebuffer != panel.tx
      ensures Valid() && this.panel == panel && fb == framebuffer && this.face == face && fresh(dirty)
      ensures Drv() == Driver(framebuffer[..], AllClean(), false)
    {
      this.panel, fb, this.face, vcom := panel, framebuffer, face, false;
      dirty := new bv8[DIRTY_BYTES](_ => 0);
      new;
      FilledDirty(dirty[..]);
    }

    method MarkDirty(y: nat)
      requires Valid() && y < HEIGHT
      modifies dirty
      ensures Drv() == old(Drv()).(dirty := old(Drv()).dirty[y := true])
    {
      MarkedDirty(dirty[..], y);
      MasksAreShifts(y);
      dirty[y / 8] := dirty[y / 8] | ((1 as bv8) << (y % 8));
      assert dirty[..] == old(dirty[..])[y / 8 := WithBit(old(dirty[..])[y / 8], y)];
    }

    method DirtyLines() returns (n: nat)
      requires Valid()
      ensures n == DirtyFrom(Drv().dirty, 0)
    {
      n := 0;
      for y := 0 to HEIGHT
        invariant n + DirtyFrom(Drv().dirty, y) == DirtyFrom(Drv().dirty, 0)
      {
        if BitAt(dirty[y / 8], y) {
          n := n + 1;
        }
      }
    }

    method FillWhite()
      requires Valid()
      modifies fb, dirty
      ensures Valid() && Sys() == Step(old(Sys()), Op.FillWhite)
    {
      FillBytes(fb, 0xFF);
      FillBytes(dirty, 0xFF);
      assert fb[..] == White();
      FilledDirty(dirty[..]);
    }

    static method FillBytes(a: array<bv8>, v: bv8)
      modifies a
      ensures forall i :: 0 <= i < a.Length ==> a[i] == v
    {
      forall i | 0 <= i < a.Length {
        a[i] := v;
      }
    }

    method StoreByte(i: nat, v: bv8)
      requires Valid() && i < FB_BYTES
      modifies fb
      ensures Drv() == old(Drv()).(fb := old(Drv()).fb[i := v])
    {
      fb[i] := v;
      assert fb[..] == old(fb[..])[i := v];
    }

    method SetPixel(x: U16, y: U16, black: bool)
      requires Valid()
      modifies fb, dirty
      ensures Valid() && Drv() == Plot(old(Drv()), Point(x, y), black)
    {
      hide PaintByte, DirtyOf;
      if x >= WIDTH || y >= HEIGHT {
        return;
      }
      var i := RowStart(y) + x / 8;
      var before := fb[i];
      var after := Painted(before, x, black);
      StoreByte(i, after);
      if fb[i] != before {
        MarkDirty(y);
      }
    }

    method Painted(b: bv8, x: U16, black: bool) returns (after: bv8)
      ensures after == PaintByte(b, x, black)
    {
      hide PaintByte;
      var mask := (0x80 as bv8) >> (x % 8);
      PaintedByShift(b, x, black);
      return if black then b & !mask else b | mask;
    }

    method GetPixel(x: U16, y: U16) returns (black: bool)
      requires Valid()
      ensures black == Ink(fb[..], Point(x, y))
    {
      if x >= WIDTH || y >= HEIGHT {
        return false;
      }
      var b := fb[RowStart(y) + x / 8];
      MasksAreShifts(x);
      return b & ((0x80 as bv8) >> (x % 8)) == 0;
    }

    method FillRect(x: U16, y: U16, w: U16, h: U16, black: bool)
      requires Valid() && FillRectEnds(x, y, w, h)
      modifies fb, dirty
      ensures Valid()
      ensures Sys() == Step(old(Sys()), Draw(if h == 0 then [] else Rect(x, x + w, y, y + h), black))
    {
      hide Plot;
      if h == 0 {
        return;
      }
      ghost var target := PlotAll(Drv(), Rect(x, x + w, y, y + h), black);
      var yy := y;
      while yy < y + h
        invariant Valid() && y <= yy <= y + h
        invariant PlotAll(Drv(), Rect(x, x + w, yy, y + h), black) == target
      {
        PlotAllConcat(Drv(), Span(x, x + w, yy), Rect(x, x + w, yy + 1, y + h), black);
        DrawHline(x, yy, w, black);
        yy := Wrap16(yy + 1);
      }
    }

    method DrawHline(x: U16, y: U16, w: U16, black: bool)
      requires Valid() && x + w <= 0xFFFF
      modifies fb, dirty
      ensures Valid() && Sys() == Step(old(Sys()), Draw(Span(x, x + w, y), black))
    {
      hide Plot;
      ghost var target := PlotAll(Drv(), Span(x, x + w, y), black);
      var xx := x;
      while xx < x + w
        invariant Valid() && x <= xx <= x + w
        invariant PlotAll(Drv(), Span(xx, x + w, y), black) == target
      {
        assert Span(xx, x + w, y)[1..] == Span(xx + 1, x + w, y);
        SetPixel(xx, y, black);
        xx := Wrap16(xx + 1);
      }
    }

    method FillDither(x: U16, y: U16, w: U16, h: U16, level: nat)
      requires Valid()
      modifies fb, dirty
      ensures Valid() && Sys() == Step(old(Sys()), Draw(Dither(x, y, w, h, level), true))
    {
      if level >= 249 {
        return;
      }
      DitherLines(x, x + w, y, y + h, level, Pattern(level));
    }

    method DitherLines(x: U16, xEnd: nat, y: U16, yEnd: nat, level: nat, ghost on: (nat, nat) -> bool)
      requires Valid() && forall i, j :: on(i, j) == DitherOn(i, j, level)
      modifies fb, dirty
      ensures Valid() && Drv() == PlotAll(old(Drv()), DitherRows(x, xEnd, y, yEnd, on), true)
    {
      hide Plot;
      ghost var target := PlotAll(Drv(), DitherRows(x, xEnd, y, yEnd, on), true);
      var yy := y;
      while yy < yEnd && yy < HEIGHT
        invariant Valid() && y <= yy
        invariant PlotAll(Drv(), DitherRows(x, xEnd, yy, yEnd, on), true) == target
        decreases yEnd - yy
      {
        PlotAllConcat(Drv(), DitherSpan(x, xEnd, yy, on), DitherRows(x, xEnd, yy + 1, yEnd, on), true);
        DitherLine(x, xEnd, yy, level, on);
        yy := yy + 1;
      }
    }

    method DitherLine(x: U16, xEnd: nat, y: U16, level: nat, ghost on: (nat, nat) -> bool)
      requires Valid() && y < HEIGHT && forall i, j :: on(i, j) == DitherOn(i, j, level)
      modifies fb, dirty
      ensures Valid() && Drv() == PlotAll(old(Drv()), DitherSpan(x, xEnd, y, on), true)
    {
      hide Plot;
      hide DitherOn;
      ghost var target := PlotAll(Drv(), DitherSpan(x, xEnd, y, on), true);
      var xx := x;
      while xx < xEnd && xx < WIDTH
        invariant Valid() && x <= xx
        invariant PlotAll(Drv(), DitherSpan(xx, xEnd, y, on), true) == target
        decreases xEnd - xx
      {
        if DitherOn(xx, y, level) {
          assert on(xx, y);
          assert DitherSpan(xx, xEnd, y, on)[1..] == DitherSpan(xx + 1, xEnd, y, on);
          SetPixel(xx, y, true);
        } else {
          assert DitherSpan(xx, xEnd, y, on) == DitherSpan(xx + 1, xEnd, y, on);
        }
        xx := xx + 1;
      }
    }

    method DrawText(x0: U16, y: U16, s: seq<bv8>, black: bool) returns (x: U16)
      requires Valid()
      modifies fb, dirty
      ensures Valid()
      ensures Sys() == Step(old(Sys()), Draw(TextPoints(face, DecodeText(s), x0, y, 1), black))
      ensures x == PenAfter(x0, |DecodeText(s)|, 6)
    {
      hide Plot, PenAfter, GlyphRows, DecodeFrom, NextCp, TextPoints, Wrap16;
      x := x0;
      var p: nat := 0;
      ghost var target := PlotAll(Drv(), TextPoints(face, DecodeText(s), x0, y, 1), black);
      while At(s, p) != 0
        invariant Valid() && p <= |s|
        invariant PlotAll(Drv(), TextPoints(face, DecodeFrom(s, p), x, y, 1), black) == target
        invariant PenAfter(x, |DecodeFrom(s, p)|, 6) == PenAfter(x0, |DecodeText(s)|, 6)
        decreases |s| - p
      {
        NextCharacter(Drv(), face, s, p, x, y, 1, black);
        var (cp, q) := NextCp(s, p);
        var g := match face.glyph(cp) case Some(glyph) => glyph case None => MISSING_BOX;
        DrawGlyph(g, x, y, black, 1);
        PenAdvances(x, |DecodeFrom(s, q)|, 6);
        x := Wrap16(x + FONT_W);
        p := q;
      }
      NothingMore(Drv(), face, s, p, x, y, 1, black);
      PenAdvances(x, 0, 6);
    }

    method DrawTextScaled(x0: U16, y: U16, s: seq<bv8>, black: bool, scale: nat) returns (x: U16)
      requires Valid() && scale < 256
      modifies fb, dirty
      ensures Valid()
      ensures Sys() == Step(old(Sys()), Draw(TextPoints(face, DecodeText(s), x0, y, if scale <= 1 then 1 else scale), black))
      ensures x == PenAfter(x0, |DecodeText(s)|, if scale <= 1 then 6 else 6 * scale)
    {
      hide Plot, PenAfter, GlyphRows, DecodeFrom, NextCp, TextPoints, Wrap16;
      if scale <= 1 {
        x := DrawText(x0, y, s, black);
        return;
      }
      x := x0;
      var p: nat := 0;
      ghost var target := PlotAll(Drv(), TextPoints(face, DecodeText(s), x0, y, scale), black);
      while At(s, p) != 0
        invariant Valid() && p <= |s|
        invariant PlotAll(Drv(), TextPoints(face, DecodeFrom(s, p), x, y, scale), black) == target
        invariant PenAfter(x, |DecodeFrom(s, p)|, 6 * scale) == PenAfter(x0, |DecodeText(s)|, 6 * scale)
        decreases |s| - p
      {
        NextCharacter(Drv(), face, s, p, x, y, scale, black);
        var (cp, q) := NextCp(s, p);
        match face.glyph(cp) {
          case Some(g) => DrawGlyph(g, x, y, black, scale);
          case None =>
        }
        PenAdvances(x, |DecodeFrom(s, q)|, 6 * scale);
        x := Wrap16(x + FONT_W * scale);
        p := q;
      }
      NothingMore(Drv(), face, s, p, x, y, scale, black);
      PenAdvances(x, 0, 6 * scale);
    }

    method DrawGlyph(g: Glyph, x: U16, y: U16, black: bool, scale: nat)
      requires Valid()
      modifies fb, dirty
      ensures Valid() && Drv() == PlotAll(old(Drv()), GlyphRows(g, x, y, scale, 0), black)
    {
      hide Plot;
      ghost var target := PlotAll(Drv(), GlyphRows(g, x, y, scale, 0), black);
      var yy: int := y;
      for row := 0 to FONT_H
        invariant Valid() && PlotAll(Drv(), GlyphRows(g, x, yy, scale, row), black) == target
      {
        PlotAllConcat(Drv(), GlyphRow(g[row], x, yy, scale, 0), GlyphRows(g, x, yy + scale, scale, row + 1), black);
        DrawGlyphRow(g[row], x, yy, black, scale);
        yy := yy + scale;
      }
    }

    method DrawGlyphRow(bits: bv8, x: int, y: int, black: bool, scale: nat)
      requires Valid()
      modifies fb, dirty
      ensures Valid() && Drv() == PlotAll(old(Drv()), GlyphRow(bits, x, y, scale, 0), black)
    {
      hide Plot;
      hide PixelMask;
      ghost var target := PlotAll(Drv(), GlyphRow(bits, x, y, scale, 0), black);
      var xx := x;
      for col := 0 to FONT_INK_W
        invariant Valid() && PlotAll(Drv(), GlyphRow(bits, xx, y, scale, col), black) == target
      {
        if bits & PixelMask(col) != 0 {
          PlotAllConcat(Drv(), Block(xx, y, scale, 0), GlyphRow(bits, xx + scale, y, scale, col + 1), black);
          DrawBlock(xx, y, black, scale);
        } else {
          assert GlyphRow(bits, xx, y, scale, col) == GlyphRow(bits, xx + scale, y, scale, col + 1);
        }
        xx := xx + scale;
      }
    }

    method DrawBlock(x: int, y: int, black: bool, scale: nat)
      requires Valid()
      modifies fb, dirty
      ensures Valid() && Drv() == PlotAll(old(Drv()), Block(x, y, scale, 0), black)
    {
      hide Plot;
      ghost var target := PlotAll(Drv(), Block(x, y, scale, 0), black);
      for sy := 0 to scale
        invariant Valid() && PlotAll(Drv(), Block(x, y, scale, sy), black) == target
      {
        PlotAllConcat(Drv(), BlockRow(x, y + sy, scale, 0), Block(x, y, scale, sy + 1), black);
        ghost var rowTarget := PlotAll(Drv(), BlockRow(x, y + sy, scale, 0), black);
        for sx := 0 to scale
          invariant Valid() && PlotAll(Drv(), BlockRow(x, y + sy, scale, sx), black) == rowTarget
        {
          assert BlockRow(x, y + sy, scale, sx)[1..] == BlockRow(x, y + sy, scale, sx + 1);
          SetPixel(Wrap16(x + sx), Wrap16(y + sy), black);
        }
      }
    }

    /** Sends only changed lines and returns how many; the bus sees one framed transaction. */
    method Flush() returns (n: nat)
      requires Valid()
      modifies dirty, panel, panel.img, panel.tx
      ensures Valid() && Sys() == Step(old(Sys()), Op.Flush)
      ensures n == DirtyFrom(old(Drv()).dirty, 0)
    {
      n := DirtyLines();
      if n == 0 {
        return;
      }
      SendUpdate();
      FillBytes(dirty, 0);
      FilledDirty(dirty[..]);
    }

    method SendUpdate()
      requires Valid()
      modifies panel, panel.img, panel.tx
      ensures Valid()
      ensures panel.State() == Transaction(old(panel.State()), UpdateTransaction(Drv().fb, Drv().dirty, vcom))
    {
      hide Decode;
      ghost var d, p := Drv(), Selected(panel.State(), true);
      ghost var tx := UpdateTransaction(d.fb, d.dirty, d.vcom);
      panel.Select(true);
      panel.Write([ModeByte(M0_WRITE, vcom)]);
      assert panel.State() == p.(tx := [ModeByte(M0_WRITE, vcom)]);
      SendLines();
      panel.Write([0]);
      assert panel.State() == p.(tx := tx);
      assert p.(tx := tx) == Written(p, tx) by {
        assert [] + tx == tx;
      }
      panel.Select(false);
    }

    // One frame per dirty line, top to bottom.
    method SendLines()
      requires Valid() && panel.selected && |panel.State().tx| == 1
      modifies panel, panel.tx
      ensures Valid()
      ensures panel.State() == old(panel.State()).(tx := old(panel.State()).tx + Frames(Drv().fb, Drv().dirty, 0))
    {
      hide LineAddress;
      ghost var d, p := Drv(), panel.State();
      ghost var sent: seq<bv8> := [];
      assert [] + Frames(d.fb, d.dirty, 0) == Frames(d.fb, d.dirty, 0);
      for y := 0 to HEIGHT
        invariant Valid() && Drv() == d
        invariant |sent| + 52 * DirtyFrom(d.dirty, y) <= 52 * HEIGHT
        invariant sent + Frames(d.fb, d.dirty, y) == Frames(d.fb, d.dirty, 0)
        invariant panel.State() == p.(tx := p.tx + sent)
      {
        ghost var later := Frames(d.fb, d.dirty, y + 1);
        if BitAt(dirty[y / 8], y) {
          assert d.dirty[y];
          Regroup(sent, LineFrame(d.fb, y), later);
          Regroup(p.tx, sent, LineFrame(d.fb, y));
          SendLine(y);
          sent := sent + LineFrame(d.fb, y);
        } else {
          assert Frames(d.fb, d.dirty, y) == later;
        }
      }
      assert sent == sent + [];
    }

    static lemma Regroup(a: seq<bv8>, b: seq<bv8>, c: seq<bv8>)
      ensures (a + b) + c == a + (b + c)
    {
    }

    method SendLine(y: nat)
      requires Valid() && panel.selected && y < HEIGHT && |panel.State().tx| + 52 <= TX_MAX
      modifies panel, panel.tx
      ensures Valid() && panel.State() == old(panel.State()).(tx := old(panel.State()).tx + LineFrame(fb[..], y))
    {
      hide LineAddress;
      panel.Write([LineAddress(y + 1)]);
      panel.Write(fb[RowStart(y)..RowStart(y) + LINE_BYTES]);
      panel.Write([0]);
      assert fb[RowStart(y)..RowStart(y) + LINE_BYTES] == Line(fb[..], y);
    }

    method ToggleVcom()
      requires Valid()
      modifies this, panel, panel.img, panel.tx
      ensures Valid() && Sys() == Step(old(Sys()), Op.ToggleVcom)
    {
      vcom := !vcom;
      SendMode(ModeByte(0, vcom));
    }

    method Clear()
      requires Valid()
      modifies fb, dirty, panel, panel.img, panel.tx
      ensures Valid() && Sys() == Step(old(Sys()), Op.Clear)
    {
      SendMode(ModeByte(M2_CLEAR, vcom));
      FillBytes(fb, 0xFF);
      FillBytes(dirty, 0);
      assert fb[..] == White();
      FilledDirty(dirty[..]);
    }

    // The two-byte transactions: a mode byte and its dummy clocks.
    method SendMode(mode: bv8)
      requires Valid()
      modifies panel, panel.img, panel.tx
      ensures Valid() && panel.State() == Transaction(old(panel.State()), [mode, 0])
    {
      panel.Select(true);
      panel.Write([mode, 0]);
      panel.Select(false);
    }
  }
}
