// The driver's framebuffer, dirty set and wire traffic, as values.
module Wrappers {
  datatype Option<+T> = None | Some(value: T)
}

module DriverModel {
  import opened Bits
  import opened Geometry
  import opened Wire
  import opened PanelModel

  datatype Point = Point(x: U16, y: U16)

  datatype Driver = Driver(fb: Image, dirty: Dirty, vcom: bool)

  /** The driver together with the panel at the other end of its bus. */
  datatype System = System(drv: Driver, panel: Panel)

  datatype Op =
    | FillWhite
    | Draw(points: seq<Point>, black: bool)
    | Flush
    | ToggleVcom
    | Clear

  function AllDirty(): Dirty { seq(HEIGHT, _ => true) }
  function AllClean(): Dirty { seq(HEIGHT, _ => false) }

  // ---- Drawing --------------------------------------------------------

  function ByteIndex(p: Point): nat {
    RowStart(p.y) + p.x / 8
  }

  predicate OnPanel(p: Point) {
    p.x < WIDTH && p.y < HEIGHT
  }

  predicate Ink(img: Image, p: Point) {
    OnPanel(p) && InkByte(img[ByteIndex(p)], p.x)
  }

  /** One pixel write: off-panel points are ignored, and only a changed byte dirties its line. */
  function Plot(d: Driver, p: Point, black: bool): Driver {
    if !OnPanel(p) then d else
    var before := d.fb[ByteIndex(p)];
    var after := PaintByte(before, p.x, black);
    d.(fb := d.fb[ByteIndex(p) := after],
       dirty := if after != before then d.dirty[p.y := true] else d.dirty)
  }

  function PlotAll(d: Driver, points: seq<Point>, black: bool): Driver
    decreases |points|
  {
    if points == [] then d else PlotAll(Plot(d, points[0], black), points[1..], black)
  }

  lemma PlotInk(d: Driver, p: Point, q: Point, black: bool)
    ensures Ink(Plot(d, p, black).fb, q) == if p == q && OnPanel(q) then black else Ink(d.fb, q)
  {
    if OnPanel(p) && OnPanel(q) && ByteIndex(p) == ByteIndex(q) {
      assert p.y == q.y && p.x / 8 == q.x / 8;
      if p.x == q.x {
        PaintSame(d.fb[ByteIndex(p)], p.x, black);
      } else {
        PaintOther(d.fb[ByteIndex(p)], p.x, q.x, black);
      }
    }
  }

  /** What any drawing does to the picture: its points take the colour, nothing else changes. */
  lemma {:induction false} PlotAllInk(d: Driver, points: seq<Point>, q: Point, black: bool)
    ensures Ink(PlotAll(d, points, black).fb, q) == if q in points && OnPanel(q) then black else Ink(d.fb, q)
    decreases |points|
  {
    if points != [] {
      PlotInk(d, points[0], q, black);
      PlotAllInk(Plot(d, points[0], black), points[1..], q, black);
    }
  }

  lemma {:induction false} PlotAllConcat(d: Driver, a: seq<Point>, b: seq<Point>, black: bool)
    ensures PlotAll(d, a + b, black) == PlotAll(PlotAll(d, a, black), b, black)
    decreases |a|
  {
    if a == [] {
      assert a + b == b;
    } else {
      assert (a + b)[1..] == a[1..] + b;
      PlotAllConcat(Plot(d, a[0], black), a[1..], b, black);
    }
  }

  // ---- Steps ----------------------------------------------------------

  function Step(s: System, op: Op): System {
    match op
    case FillWhite => s.(drv := s.drv.(fb := White(), dirty := AllDirty()))
    case Draw(points, black) => s.(drv := PlotAll(s.drv, points, black))
    case Flush =>
      if DirtyFrom(s.drv.dirty, 0) == 0 then s
      else System(s.drv.(dirty := AllClean()),
                  Transaction(s.panel, UpdateTransaction(s.drv.fb, s.drv.dirty, s.drv.vcom)))
    case ToggleVcom =>
      System(s.drv.(vcom := !s.drv.vcom), Transaction(s.panel, [ModeByte(0, !s.drv.vcom), 0]))
    case Clear =>
      System(s.drv.(fb := White(), dirty := AllClean()),
             Transaction(s.panel, [ModeByte(M2_CLEAR, s.drv.vcom), 0]))
  }

  function Run(s: System, ops: seq<Op>): System
    decreases |ops|
  {
    if ops == [] then s else Run(Step(s, ops[0]), ops[1..])
  }

  /** The driver over a buffer the caller supplied, and a panel that powers up white. */
  function Boot(fb: Image): System {
    System(Driver(fb, AllClean(), false), PowerUp())
  }

  // ---- Invariants -----------------------------------------------------

  /** The wire level: no transaction open, nothing ever dropped, the VCOM flags agree. */
  predicate Linked(s: System) {
    !s.panel.selected && s.panel.tx == [] && !s.panel.overflowed && s.panel.vcom == s.drv.vcom
  }

  /** Every clean line of the framebuffer is what the panel shows. */
  predicate Coherent(s: System) {
    forall y :: 0 <= y < HEIGHT && !s.drv.dirty[y] ==> Line(s.drv.fb, y) == Line(s.panel.img, y)
  }

  lemma TransactionLinks(p: Panel, bytes: seq<bv8>, vcom: bool)
    requires !p.overflowed && 0 < |bytes| <= TX_MAX
    requires (bytes[0] & M1_VCOM != 0) == vcom
    ensures var q := Transaction(p, bytes);
      !q.selected && q.tx == [] && !q.overflowed && q.vcom == vcom
    ensures Transaction(p, bytes).img == Applied(p.(selected := false, tx := bytes)).img
  {
    var open := Written(Selected(p, true), bytes);
    assert open.tx == bytes;
  }

  lemma StepLinked(s: System, op: Op)
    requires Linked(s)
    ensures Linked(Step(s, op))
  {
    ModeBits(s.drv.vcom);
    ModeBits(!s.drv.vcom);
    match op
    case FillWhite =>
    case Draw(points, black) => PlotAllKeepsVcom(s.drv, points, black);
    case Flush =>
      if DirtyFrom(s.drv.dirty, 0) != 0 {
        TransactionLinks(s.panel, UpdateTransaction(s.drv.fb, s.drv.dirty, s.drv.vcom), s.drv.vcom);
      }
    case ToggleVcom => TransactionLinks(s.panel, [ModeByte(0, !s.drv.vcom), 0], !s.drv.vcom);
    case Clear => TransactionLinks(s.panel, [ModeByte(M2_CLEAR, s.drv.vcom), 0], s.drv.vcom);
  }

  lemma {:induction false} PlotAllKeepsVcom(d: Driver, points: seq<Point>, black: bool)
    ensures PlotAll(d, points, black).vcom == d.vcom
    decreases |points|
  {
    if points != [] {
      PlotAllKeepsVcom(Plot(d, points[0], black), points[1..], black);
    }
  }

  lemma PlotCoherent(s: System, p: Point, black: bool)
    requires Coherent(s)
    ensures Coherent(s.(drv := Plot(s.drv, p, black)))
  {
    var d := Plot(s.drv, p, black);
    forall y | 0 <= y < HEIGHT && !d.dirty[y]
      ensures Line(d.fb, y) == Line(s.panel.img, y)
    {
      assert !s.drv.dirty[y];
      assert Line(d.fb, y) == Line(s.drv.fb, y);
    }
  }

  lemma {:induction false} PlotAllCoherent(s: System, points: seq<Point>, black: bool)
    requires Coherent(s)
    ensures Coherent(s.(drv := PlotAll(s.drv, points, black)))
    decreases |points|
  {
    if points != [] {
      PlotCoherent(s, points[0], black);
      var s' := s.(drv := Plot(s.drv, points[0], black));
      PlotAllCoherent(s', points[1..], black);
    }
  }

  lemma DataUpdate(p: Panel, mode: bv8, rest: seq<bv8>)
    requires mode & M2_CLEAR == 0 && mode & M0_WRITE != 0
    ensures Applied(p.(selected := false, tx := [mode] + rest)).img == Decode(p.img, rest)
  {
    assert ([mode] + rest)[1..] == rest;
  }

  lemma UpdateDecodes(p: Panel, d: Driver)
    requires !p.overflowed
    ensures Transaction(p, UpdateTransaction(d.fb, d.dirty, d.vcom)).img
         == Decode(p.img, Frames(d.fb, d.dirty, 0) + [0])
  {
    var rest := Frames(d.fb, d.dirty, 0) + [0];
    var mode := ModeByte(M0_WRITE, d.vcom);
    ModeBits(d.vcom);
    assert UpdateTransaction(d.fb, d.dirty, d.vcom) == [mode] + rest;
    TransactionLinks(p, [mode] + rest, d.vcom);
    DataUpdate(p, mode, rest);
  }

  /** What a flush leaves on the panel, line by line, from any linked state. */
  lemma FlushSends(s: System, y: nat)
    requires Linked(s) && y < HEIGHT
    ensures Line(Step(s, Flush).panel.img, y)
         == if s.drv.dirty[y] then Line(s.drv.fb, y) else Line(s.panel.img, y)
  {
    if DirtyFrom(s.drv.dirty, 0) != 0 {
      UpdateDecodes(s.panel, s.drv);
      DecodeFrames(s.panel.img, s.drv.fb, s.drv.dirty, 0, y);
    }
  }

  lemma StepCoherent(s: System, op: Op)
    requires Linked(s) && Coherent(s)
    ensures Coherent(Step(s, op))
  {
    ModeBits(s.drv.vcom);
    ModeBits(!s.drv.vcom);
    match op
    case FillWhite =>
    case Draw(points, black) => PlotAllCoherent(s, points, black);
    case Flush =>
      forall y | 0 <= y < HEIGHT
        ensures Line(s.drv.fb, y) == Line(Step(s, Flush).panel.img, y)
      {
        FlushSends(s, y);
      }
    case ToggleVcom => TransactionLinks(s.panel, [ModeByte(0, !s.drv.vcom), 0], !s.drv.vcom);
    case Clear => ClearShowsWhite(s);
  }

  lemma ClearShowsWhite(s: System)
    requires Linked(s)
    ensures Step(s, Clear).panel.img == White()
  {
    ModeBits(s.drv.vcom);
    TransactionLinks(s.panel, [ModeByte(M2_CLEAR, s.drv.vcom), 0], s.drv.vcom);
  }

  // ---- Runs -----------------------------------------------------------

  /** Over every sequence of driver calls from power-up, whatever the buffer held: the bus is always
      left idle, the VCOM flags agree and no transaction ever outgrows the panel's buffer. */
  lemma {:induction false} RunLinked(s: System, ops: seq<Op>)
    requires Linked(s)
    ensures Linked(Run(s, ops))
    decreases |ops|
  {
    if ops != [] {
      StepLinked(s, ops[0]);
      RunLinked(Step(s, ops[0]), ops[1..]);
    }
  }

  lemma {:induction false} RunCoherent(s: System, ops: seq<Op>)
    requires Linked(s) && Coherent(s)
    ensures Linked(Run(s, ops)) && Coherent(Run(s, ops))
    decreases |ops|
  {
    if ops != [] {
      StepLinked(s, ops[0]);
      StepCoherent(s, ops[0]);
      RunCoherent(Step(s, ops[0]), ops[1..]);
    }
  }

  /** Once a fill_white or clear has happened, every later state is coherent, whatever came before. */
  lemma CoherentAfterWhite(fb: Image, before: seq<Op>, op: Op, after: seq<Op>)
    requires op == FillWhite || op == Clear
    ensures var s := Run(Step(Run(Boot(fb), before), op), after);
      Linked(s) && Coherent(s)
  {
    var s := Run(Boot(fb), before);
    RunLinked(Boot(fb), before);
    StepLinked(s, op);
    if op == Clear {
      ClearShowsWhite(s);
    }
    RunCoherent(Step(s, op), after);
  }

  /** After any flush of a coherent state the panel shows the framebuffer, and nothing is dirty. */
  lemma FlushShowsFramebuffer(s: System)
    requires Linked(s) && Coherent(s)
    ensures Step(s, Flush).panel.img == s.drv.fb == Step(s, Flush).drv.fb
    ensures Step(s, Flush).drv.dirty == AllClean()
    ensures forall p :: Ink(Step(s, Flush).panel.img, p) == Ink(s.drv.fb, p)
  {
    forall y | 0 <= y < HEIGHT
      ensures Line(Step(s, Flush).panel.img, y) == Line(s.drv.fb, y)
    {
      FlushSends(s, y);
    }
    SameLinesSameImage(Step(s, Flush).panel.img, s.drv.fb);
    if DirtyFrom(s.drv.dirty, 0) == 0 {
      assert forall y :: 0 <= y < HEIGHT ==> !s.drv.dirty[y];
      assert s.drv.dirty == AllClean();
    }
  }

  /** Starting without a fill_white or clear is right exactly when the caller's buffer was white. */
  lemma BootCoherentIff(fb: Image)
    ensures Linked(Boot(fb))
    ensures Coherent(Boot(fb)) <==> fb == White()
    ensures Step(Boot(fb), Flush).panel.img == fb <==> fb == White()
  {
    if Coherent(Boot(fb)) {
      SameLinesSameImage(fb, White());
    }
  }
}
