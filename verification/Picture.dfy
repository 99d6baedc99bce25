// What a frame looks like on the panel, pixel by pixel, and what scrolling does to it.
module FramePicture {
  import opened Geometry
  import opened LayoutTypes
  import opened LayoutSpec
  import opened LayoutTables
  import opened LayoutScroll
  import opened LayoutRects
  import Lcd = DriverModel
  import Shapes
  import Bits

  /** The ink of each face's glyphs, as offsets from the cell's top left; nothing is assumed of the
      fonts but that a glyph is at most 64 pixels tall. */
  type Offsets = o: seq<(nat, nat)> | forall i :: 0 <= i < |o| ==> o[i].1 <= 64 witness []
  datatype Fonts = Fonts(ink: (Face, seq<bv8>) -> Offsets)

  // ---- One draw -------------------------------------------------------

  function InkAt(o: seq<(nat, nat)>, x: nat, y: nat): seq<Lcd.Point> {
    seq(|o|, i requires 0 <= i < |o| => Lcd.Point(Wrap16(x + o[i].0), Wrap16(y + o[i].1)))
  }

  /** The pixels a draw touches, as the driver's loops visit them. */
  function PointsOf(fonts: Fonts, d: Draw): seq<Lcd.Point>
    requires Ends(d.shape) && d.row < HEIGHT
  {
    match d.shape
    case Fill(x, w, h, _) => Shapes.Rect(x, x + w, d.row, d.row + h)
    case Texture(x, w, h, level) => Shapes.Dither(x, d.row, w, h, level)
    case Rule(x, dy, w, _) => Shapes.Span(x, x + w, Wrap16(d.row + dy))
    case Glyph(face, x, bytes, _) => InkAt(fonts.ink(face, bytes), x, d.row)
    case Symbol(x, bytes, _) => InkAt(fonts.ink(Body, bytes), x, d.row)
    case Link(_, _, _, _, _) => []
  }

  predicate IsBlack(d: Draw) {
    match d.shape
    case Fill(_, _, _, black) => black
    case Texture(_, _, _, _) => true
    case Rule(_, _, _, black) => black
    case Glyph(_, _, _, black) => black
    case Symbol(_, _, black) => black
    case Link(_, _, _, _, _) => false
  }

  predicate InkCovers(o: seq<(nat, nat)>, x: int, y: int, px: int, py: int) {
    exists i :: 0 <= i < |o| && Wrap16(x + o[i].0) == px && y + o[i].1 == py
  }

  /** Does a draw on row `row` touch pixel (px, py), both on the page? `phase` is where the panel's own
      rows start, for the texture alone is drawn in the panel's grid. */
  predicate Covers(fonts: Fonts, phase: int, d: Draw, px: nat, py: nat) {
    match d.shape
    case Fill(x, w, h, _) => x <= px < x + w && d.row <= py < d.row + h
    case Texture(x, w, h, level) =>
      x <= px < x + w && d.row <= py < d.row + h && level < 249 && phase <= py && Shapes.DitherOn(px, py - phase, level)
    case Rule(x, dy, w, _) => x <= px < x + w && py == d.row + dy
    case Glyph(face, x, bytes, _) => InkCovers(fonts.ink(face, bytes), x, d.row, px, py)
    case Symbol(x, bytes, _) => InkCovers(fonts.ink(Body, bytes), x, d.row, px, py)
    case Link(_, _, _, _, _) => false
  }

  /** Where the renderer says a rectangle ends, the driver's precondition is met, and nowhere else. */
  lemma EndsIsFillRectEnds(x: U16, w: U16, h: U16, row: U16, black: bool)
    requires row < HEIGHT && 0 < h <= MAX_ROW
    ensures Ends(Fill(x, w, h, black)) <==> Shapes.FillRectEnds(x, row, w, h)
    ensures Ends(Fill(x, w, h, black)) <==> exists n :: Shapes.CounterStopped(x, w, n)
  {
    Shapes.CounterStopsIff(x, w);
  }

  lemma InkPoints(o: Offsets, x: nat, y: nat, q: Lcd.Point)
    requires y < HEIGHT && Lcd.OnPanel(q)
    ensures q in InkAt(o, x, y) <==> InkCovers(o, x, y, q.x, q.y)
  {
    if q in InkAt(o, x, y) {
      var i :| 0 <= i < |o| && InkAt(o, x, y)[i] == q;
      assert Wrap16(x + o[i].0) == q.x && y + o[i].1 == q.y;
    }
    if InkCovers(o, x, y, q.x, q.y) {
      var i :| 0 <= i < |o| && Wrap16(x + o[i].0) == q.x && y + o[i].1 == q.y;
      assert InkAt(o, x, y)[i] == q;
    }
  }

  /** The loops visit exactly the pixels the draw covers. */
  lemma PointsAreCovered(fonts: Fonts, d: Draw, q: Lcd.Point)
    requires Ends(d.shape) && d.row < HEIGHT && Lcd.OnPanel(q)
    ensures q in PointsOf(fonts, d) <==> Covers(fonts, 0, d, q.x, q.y)
  {
    hide InkAt, InkCovers, Shapes.DitherOn, Shapes.DitherRows, Shapes.Rect, Shapes.Span;
    match d.shape
    case Fill(x, w, h, _) => Shapes.RectMembers(x, x + w, d.row, d.row + h, q);
    case Texture(x, w, h, level) => Shapes.DitherRowsMembers(x, x + w, d.row, d.row + h, Shapes.Pattern(level), q);
    case Rule(x, dy, w, _) => Shapes.SpanMembers(x, x + w, Wrap16(d.row + dy), q);
    case Glyph(face, x, bytes, _) => InkPoints(fonts.ink(face, bytes), x, d.row, q);
    case Symbol(x, bytes, _) => InkPoints(fonts.ink(Body, bytes), x, d.row, q);
    case Link(_, _, _, _, _) =>
  }

  // ---- A log ----------------------------------------------------------

  /** Black or white: the last draw that covers the pixel says, on white paper. */
  function Pixel(fonts: Fonts, phase: int, log: seq<Draw>, px: nat, py: nat): bool
    decreases |log|
  {
    if log == [] then false
    else
      var d := log[|log| - 1];
      if Covers(fonts, phase, d, px, py) then IsBlack(d) else Pixel(fonts, phase, log[..|log| - 1], px, py)
  }

  ghost predicate OnScreen(log: seq<Draw>) {
    forall i :: 0 <= i < |log| ==> Ends(log[i].shape) && log[i].row < HEIGHT
  }

  function Ops(fonts: Fonts, log: seq<Draw>): seq<Lcd.Op>
    requires OnScreen(log)
    decreases |log|
  {
    if log == [] then []
    else
      var d := log[|log| - 1];
      Ops(fonts, log[..|log| - 1]) + [Lcd.Op.Draw(PointsOf(fonts, d), IsBlack(d))]
  }

  lemma {:induction false} RunSnoc(s: Lcd.System, ops: seq<Lcd.Op>, op: Lcd.Op)
    ensures Lcd.Run(s, ops + [op]) == Lcd.Step(Lcd.Run(s, ops), op)
    decreases |ops|
  {
    hide Lcd.Step;
    if ops == [] {
      assert [] + [op] == [op] && Lcd.Run(Lcd.Step(s, op), []) == Lcd.Step(s, op);
    } else {
      assert (ops + [op])[1..] == ops[1..] + [op];
      RunSnoc(Lcd.Step(s, ops[0]), ops[1..], op);
    }
  }

  lemma {:induction false} DrawsPaint(fonts: Fonts, s: Lcd.System, log: seq<Draw>, q: Lcd.Point)
    requires OnScreen(log) && Lcd.OnPanel(q) && !Lcd.Ink(s.drv.fb, q)
    ensures Lcd.Ink(Lcd.Run(s, Ops(fonts, log)).drv.fb, q) == Pixel(fonts, 0, log, q.x, q.y)
    decreases |log|
  {
    hide Covers, PointsOf, Lcd.PlotAll, Lcd.Ink;
    if log != [] {
      var d := log[|log| - 1];
      var before := Lcd.Run(s, Ops(fonts, log[..|log| - 1]));
      DrawsPaint(fonts, s, log[..|log| - 1], q);
      RunSnoc(s, Ops(fonts, log[..|log| - 1]), Lcd.Op.Draw(PointsOf(fonts, d), IsBlack(d)));
      PointsAreCovered(fonts, d, q);
      Lcd.PlotAllInk(before.drv, PointsOf(fonts, d), q, IsBlack(d));
    }
  }

  /** A whole frame: white, every draw in turn, then one flush. */
  function Frame(fonts: Fonts, s: Lcd.System, log: seq<Draw>): Lcd.System
    requires OnScreen(log)
  {
    Lcd.Step(Lcd.Run(Lcd.Step(s, Lcd.FillWhite), Ops(fonts, log)), Lcd.Flush)
  }

  lemma WhiteIsBlank(s: Lcd.System, q: Lcd.Point)
    ensures !Lcd.Ink(Lcd.Step(s, Lcd.FillWhite).drv.fb, q)
  {
    Bits.WhiteByteHasNoInk(q.x);
  }

  /** After a frame the panel shows exactly the picture of its log, whatever it showed before, and the bus
      is left idle. */
  lemma FrameShowsLog(fonts: Fonts, s: Lcd.System, log: seq<Draw>, q: Lcd.Point)
    requires Lcd.Linked(s) && OnScreen(log) && Lcd.OnPanel(q)
    ensures Lcd.Linked(Frame(fonts, s, log))
    ensures Lcd.Ink(Frame(fonts, s, log).panel.img, q) == Pixel(fonts, 0, log, q.x, q.y)
  {
    hide Pixel, Ops, Lcd.Run, Lcd.Linked, Lcd.Ink;
    var white := Lcd.Step(s, Lcd.FillWhite);
    WhiteCoheres(s);
    WhiteIsBlank(s, q);
    Lcd.RunCoherent(white, Ops(fonts, log));
    DrawsPaint(fonts, white, log, q);
    var drawn := Lcd.Run(white, Ops(fonts, log));
    Lcd.FlushShowsFramebuffer(drawn);
    Lcd.StepLinked(drawn, Lcd.Flush);
  }

  lemma WhiteCoheres(s: Lcd.System)
    requires Lcd.Linked(s)
    ensures Lcd.Linked(Lcd.Step(s, Lcd.FillWhite)) && Lcd.Coherent(Lcd.Step(s, Lcd.FillWhite))
  {
  }

  // ---- Scrolling ------------------------------------------------------

  function Shown(d: Draw, scroll: U16): Draw {
    Draw(Wrap16(Wrap16(d.row) - scroll), d.h, ShiftShape(d.shape, scroll))
  }

  lemma {:induction false} WindowedOnScreen(log: seq<Draw>, scroll: U16)
    requires AllEnd(log)
    ensures OnScreen(Windowed(log, scroll))
    decreases |log|
  {
    hide Ends;
    if log != [] {
      var d := log[|log| - 1];
      WindowedOnScreen(log[..|log| - 1], scroll);
      ShownEnds(d, scroll);
    }
  }

  lemma ShownEnds(d: Draw, scroll: U16)
    requires Ends(d.shape)
    ensures Ends(ShiftShape(d.shape, scroll))
    ensures Seen(Window(scroll), d.row) ==> Shown(d, scroll).row < HEIGHT
  {
  }

  // A draw in view covers on the panel what it covers on the page, moved up by the scroll.
  lemma ShownCovers(fonts: Fonts, d: Draw, scroll: U16, q: Lcd.Point)
    requires Ends(d.shape) && d.row <= 0xFFFF && Seen(Window(scroll), d.row) && Lcd.OnPanel(q)
    ensures Covers(fonts, 0, Shown(d, scroll), q.x, q.y) == Covers(fonts, scroll, d, q.x, q.y + scroll)
    ensures IsBlack(Shown(d, scroll)) == IsBlack(d)
  {
    hide Shapes.DitherOn, InkCovers;
    assert Shown(d, scroll).row == d.row - scroll;
    match d.shape
    case Glyph(face, x, bytes, _) => InkMoves(fonts.ink(face, bytes), x, d.row, scroll, q);
    case Symbol(x, bytes, _) => InkMoves(fonts.ink(Body, bytes), x, d.row, scroll, q);
    case _ =>
  }

  lemma InkMoves(o: seq<(nat, nat)>, x: int, y: int, scroll: nat, q: Lcd.Point)
    ensures InkCovers(o, x, y - scroll, q.x, q.y) == InkCovers(o, x, y, q.x, q.y + scroll)
  {
    if InkCovers(o, x, y - scroll, q.x, q.y) {
      var i :| 0 <= i < |o| && Wrap16(x + o[i].0) == q.x && y - scroll + o[i].1 == q.y;
      assert Wrap16(x + o[i].0) == q.x && y + o[i].1 == q.y + scroll;
    }
    if InkCovers(o, x, y, q.x, q.y + scroll) {
      var i :| 0 <= i < |o| && Wrap16(x + o[i].0) == q.x && y + o[i].1 == q.y + scroll;
      assert Wrap16(x + o[i].0) == q.x && y - scroll + o[i].1 == q.y;
    }
  }

  /** No row that is out of the window reaches into this pixel: at the window's edges a tall row may, and
      it is then not drawn at all. */
  ghost predicate Unclipped(fonts: Fonts, log: seq<Draw>, scroll: U16, px: nat, py: nat) {
    forall i :: 0 <= i < |log| && Covers(fonts, scroll, log[i], px, py) ==> Seen(Window(scroll), log[i].row)
  }

  lemma {:induction false} WindowedPixel(fonts: Fonts, log: seq<Draw>, scroll: U16, q: Lcd.Point)
    requires AllEnd(log) && ShortPage(log) && Lcd.OnPanel(q) && Unclipped(fonts, log, scroll, q.x, q.y + scroll)
    ensures Pixel(fonts, 0, Windowed(log, scroll), q.x, q.y) == Pixel(fonts, scroll, log, q.x, q.y + scroll)
    decreases |log|
  {
    hide Covers, Ends, Seen, IsBlack;
    if log != [] {
      var d := log[|log| - 1];
      var rest := log[..|log| - 1];
      WindowedPixel(fonts, rest, scroll, q);
      if Seen(Window(scroll), d.row) {
        ShownCovers(fonts, d, scroll, q);
        assert Windowed(log, scroll) == Windowed(rest, scroll) + [Shown(d, scroll)];
        PixelSnoc(fonts, 0, Windowed(rest, scroll), Shown(d, scroll), q.x, q.y);
      } else {
        assert Windowed(log, scroll) == Windowed(rest, scroll);
      }
    }
  }

  lemma PixelSnoc(fonts: Fonts, phase: int, log: seq<Draw>, d: Draw, px: nat, py: nat)
    ensures Pixel(fonts, phase, log + [d], px, py)
         == if Covers(fonts, phase, d, px, py) then IsBlack(d) else Pixel(fonts, phase, log, px, py)
  {
    assert (log + [d])[..|log|] == log;
  }

  /** Where the page has no texture at the pixel. */
  ghost predicate Untextured(log: seq<Draw>, px: nat, py: nat) {
    forall i :: 0 <= i < |log| && log[i].shape.Texture? ==> !InBox(log[i], px, py)
  }

  predicate InBox(d: Draw, px: nat, py: nat)
    requires d.shape.Texture?
  {
    d.shape.x <= px < d.shape.x + d.shape.w && d.row <= py < d.row + d.shape.h
  }

  lemma {:induction false} PhaseMattersInTexture(fonts: Fonts, log: seq<Draw>, a: nat, b: nat, px: nat, py: nat)
    requires a <= py && b <= py && ((a - b) % 4 == 0 || Untextured(log, px, py))
    ensures Pixel(fonts, a, log, px, py) == Pixel(fonts, b, log, px, py)
    decreases |log|
  {
    hide InkCovers, IsBlack, Shapes.DitherOn;
    if log != [] {
      var d := log[|log| - 1];
      if d.shape.Texture? && (a - b) % 4 == 0 {
        SamePhase(px, py - a, py - b, d.shape.level);
      }
      assert Covers(fonts, a, d, px, py) == Covers(fonts, b, d, px, py);
      PhaseMattersInTexture(fonts, log[..|log| - 1], a, b, px, py);
    }
  }

  lemma SamePhase(x: nat, y: nat, z: nat, level: nat)
    requires (y - z) % 4 == 0
    ensures Shapes.DitherOn(x, y, level) == Shapes.DitherOn(x, z, level)
  {
    assert y % 4 == z % 4;
  }

  /** The texture is fixed to the panel, not to the page: two scroll offsets show every texture alike
      exactly when they differ by a multiple of four rows. */
  lemma TextureSwimsIff(x: nat, y: nat, z: nat)
    ensures (forall level :: 0 <= level < 249 ==> Shapes.DitherOn(x, y, level) == Shapes.DitherOn(x, z, level)) <==> y % 4 == z % 4
  {
    var a, b := Shapes.BAYER4[(y % 4) * 4 + x % 4], Shapes.BAYER4[(z % 4) * 4 + x % 4];
    if y % 4 != z % 4 {
      assert a != b by { BayerDistinct(x % 4, y % 4, z % 4); }
      var high := if a < b then b else a;
      assert Shapes.DitherOn(x, y, high) != Shapes.DitherOn(x, z, high);
    }
  }

  lemma BayerDistinct(x: nat, y: nat, z: nat)
    requires x < 4 && y < 4 && z < 4 && y != z
    ensures Shapes.BAYER4[y * 4 + x] != Shapes.BAYER4[z * 4 + x]
  {
  }

  /** Scrolling moves the picture and changes nothing else: a page pixel that two frames both show, with
      no clipped row reaching into it, has the same colour on the panel in both, whatever the panel
      showed before. */
  lemma ScrollingMovesThePicture(fonts: Fonts, cfg: Config, pen: Pen, cbs: seq<Callback>, a: U16, b: U16,
                                 px: nat, py: nat, s: Lcd.System, t: Lcd.System)
    requires SafeRun(cfg, Layout(pen, []), cbs) && AllSized(cbs) && DrawableRun(Whole(cfg), Layout(pen, []), cbs)
    requires pen.rowH <= MAX_ROW && cfg.leading <= 255 && Lcd.Linked(s) && Lcd.Linked(t)
    requires px < WIDTH && a <= py < a + HEIGHT && b <= py < b + HEIGHT
    requires var log := Run(Whole(cfg), Layout(pen, []), cbs).log;
      && ShortPage(log) && Unclipped(fonts, log, a, px, py) && Unclipped(fonts, log, b, px, py)
      && ((a - b) % 4 == 0 || Untextured(log, px, py))
    ensures var atA := Run(In(cfg, a), Layout(pen, []), cbs).log; var atB := Run(In(cfg, b), Layout(pen, []), cbs).log;
      && OnScreen(atA) && OnScreen(atB)
      && Lcd.Ink(Frame(fonts, s, atA).panel.img, Lcd.Point(px, py - a))
      == Lcd.Ink(Frame(fonts, t, atB).panel.img, Lcd.Point(px, py - b))
  {
    hide Run, SafeRun, DrawableRun, Windowed, Pixel, Frame, Unclipped, Lcd.Linked, Lcd.Ink, ShortPage, Untextured, OnScreen, AllEnd;
    NothingYet(pen);
    EveryFillEndsIff(Whole(cfg), Layout(pen, []), cbs);
    var log := Run(Whole(cfg), Layout(pen, []), cbs).log;
    ScrollingNeverChangesLayout(cfg, a, b, pen, cbs);
    ScrollingNeverChangesLayout(cfg, b, a, pen, cbs);
    FramePixel(fonts, s, log, a, Lcd.Point(px, py - a));
    FramePixel(fonts, t, log, b, Lcd.Point(px, py - b));
    PhaseMattersInTexture(fonts, log, a, b, px, py);
  }

  lemma NothingYet(pen: Pen)
    ensures AllEnd(Layout(pen, []).log)
  {
  }

  lemma FramePixel(fonts: Fonts, s: Lcd.System, log: seq<Draw>, scroll: U16, q: Lcd.Point)
    requires Lcd.Linked(s) && AllEnd(log) && ShortPage(log) && Lcd.OnPanel(q) && Unclipped(fonts, log, scroll, q.x, q.y + scroll)
    ensures OnScreen(Windowed(log, scroll))
    ensures Lcd.Ink(Frame(fonts, s, Windowed(log, scroll)).panel.img, q) == Pixel(fonts, scroll, log, q.x, q.y + scroll)
  {
    hide Pixel, Windowed, Frame, Lcd.Ink, Lcd.Linked;
    WindowedOnScreen(log, scroll);
    FrameShowsLog(fonts, s, Windowed(log, scroll), q);
    WindowedPixel(fonts, log, scroll, q);
  }
}
