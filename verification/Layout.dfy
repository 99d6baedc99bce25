// The page renderer's rules, as functions from one layout state to the next.
module LayoutTypes {
  import opened Geometry
  import opened Utf8

  const MARGIN_X := 2
  const LINE_H := 13
  const MAX_DEPTH := 4
  const PARA_GAP := 4
  const HEAD_GAP_BIG := 9
  const FONT_ADVANCE := 6
  const RIGHT := 398          // WIDTH - MARGIN_X
  const CONTENT_W := 396      // WIDTH - 2 * MARGIN_X
  const T_COLS := 6
  const T_ROWS := 16

  datatype Face = Body | Big | BoldInline | BoldH3 | BoldH2

  function FaceWidth(f: Face): nat {
    match f
    case Body => 6
    case Big => 12
    case BoldInline => 6
    case BoldH3 => 7
    case BoldH2 => 8
  }

  function FaceHeight(f: Face): nat {
    match f
    case Body => 13
    case Big => 26
    case BoldInline => 12
    case BoldH3 => 13
    case BoldH2 => 16
  }

  /** What is set once, at construction; `has` says which codepoints each face carries. */
  datatype Config = Config(leading: nat, stepped: bool, head2x: bool, dither: bool, has: (Face, bv32) -> bool)

  /** Which rows are drawn: the whole page, the panel's height from a scroll offset, or that frame again
      before it is cut to the panel: laid out as the window lays it out, every draw kept in page
      coordinates. */
  datatype View = All | Window(scroll: U16) | Tall(scroll: U16)

  datatype Page = Page(cfg: Config, view: View)

  function Whole(cfg: Config): Page {
    Page(cfg, All)
  }

  datatype Shape =
    | Fill(x: int, w: int, h: int, black: bool)
    | Texture(x: int, w: int, h: int, level: nat)
    | Rule(x: int, dy: int, w: int, black: bool)
    | Glyph(face: Face, x: int, bytes: seq<bv8>, black: bool)
    | Symbol(x: int, bytes: seq<bv8>, black: bool)
    | Link(x: int, y: nat, w: int, h: int, target: seq<bv8>)

  /** One call on the display: the row it belongs to, that row's height, and what is drawn there. */
  datatype Draw = Draw(row: nat, h: nat, shape: Shape)

  /** The renderer's state between calls. `y` is the page position before it is cut to sixteen bits. */
  datatype Pen = Pen(y: nat, x: U16, rowOpen: bool, depth: nat, invert: bool, headRule: bool, literal: bool,
                     hasBg: bool, bgLuma: nat, blankPending: bool, head: nat, bold: bool, underline: bool, rowH: nat)

  /** The pen together with everything drawn so far. */
  datatype Layout = Layout(pen: Pen, log: seq<Draw>)

  datatype Align = Left | Center | Right

  datatype Color = Color(isDefault: bool, isValid: bool, r: nat, g: nat, b: nat)

  datatype Style = Style(depth: nat, align: Align, bg: Color, literal: bool, heading: bool, bold: bool, underline: bool)

  datatype FieldKind = TextField | Checkbox | Radio

  datatype Field = Field(kind: FieldKind, width: nat, masked: bool, prechecked: bool, value: seq<bv8>, caption: seq<bv8>)

  /** What the parser reports. A table arrives whole: its collected cells, row by row, and the natural
      width of each column. */
  datatype Callback =
    | Text(t: seq<bv8>, style: Style)
    | LinkTo(caption: seq<bv8>, target: seq<bv8>, style: Style)
    | Divider(ch: bv32, style: Style)
    | FieldOf(field: Field, style: Style)
    | LineEnd(style: Style)
    | Table(rows: seq<seq<seq<bv8>>>, widths: seq<nat>, style: Style)
    | Image(alt: seq<bv8>, url: seq<bv8>, style: Style)
    | Partial(url: seq<bv8>, style: Style)
    | Blank

  function Fresh(): Layout {
    Layout(Pen(0, 0, false, 0, false, false, false, false, 255, true, 0, false, false, 0), [])
  }

  /** Rec. 601 luma; no colour at all reads as white. */
  function Luma(c: Color): nat {
    if c.isDefault || !c.isValid then 255 else ((299 * c.r + 587 * c.g + 114 * c.b) / 1000) % 256
  }

  predicate HasBg(c: Color) {
    !c.isDefault && c.isValid
  }
}

module LayoutSpec {
  import opened Geometry
  import opened Utf8
  import opened Chunks
  import opened CellWalk
  import opened TableFit
  import opened LayoutTypes

  // ---- Geometry of the pen --------------------------------------------

  function Indent(s: Layout): nat {
    MARGIN_X + 12 * (if s.pen.depth > MAX_DEPTH then MAX_DEPTH else s.pen.depth)
  }

  function LineHeight(g: Page): nat {
    LINE_H + g.cfg.leading
  }

  function RowHeight(g: Page, s: Layout): nat {
    if s.pen.rowH != 0 then s.pen.rowH else LineHeight(g)
  }

  function HeadFace(head: nat): Face {
    if head == 1 then Big else if head == 2 then BoldH2 else BoldH3
  }

  function Pace(s: Layout): nat {
    if 1 <= s.pen.head <= 3 then FaceWidth(HeadFace(s.pen.head))
    else if s.pen.bold then FaceWidth(BoldInline)
    else FONT_ADVANCE
  }

  predicate Seen(v: View, y: nat) {
    match v
    case All => true
    case Window(scroll) => scroll <= Wrap16(y) < scroll + HEIGHT
    case Tall(_) => true
  }

  /** Whether a table line's cells are laid out at all. */
  predicate LaidOut(v: View, y: nat) {
    if v.Tall? then Seen(Window(v.scroll), y) else Seen(v, y)
  }

  function ScreenY(v: View, y: nat): nat {
    match v
    case All => y
    case Window(scroll) => Wrap16(Wrap16(y) - scroll)
    case Tall(_) => y
  }

  /** Draws on the current row, if that row is in view. */
  function Put(g: Page, s: Layout, shape: Shape): Layout {
    if Seen(g.view, s.pen.y) then s.(log := s.log + [Draw(ScreenY(g.view, s.pen.y), RowHeight(g, s), shape)]) else s
  }

  function PutIf(g: Page, s: Layout, when: bool, shape: Shape): Layout {
    if when then Put(g, s, shape) else s
  }

  function Newline(g: Page, s: Layout): Layout {
    s.(pen := s.pen.(y := s.pen.y + RowHeight(g, s), x := Indent(s), rowOpen := false))
  }

  function Opened(s: Layout): Layout {
    s.(pen := s.pen.(rowOpen := true))
  }

  function AtColumn(s: Layout, x: U16): Layout {
    s.(pen := s.pen.(x := x, rowOpen := true))
  }

  function Deepened(s: Layout, depth: nat): Layout {
    s.(pen := s.pen.(depth := depth))
  }

  function Moved(s: Layout, w: nat): Layout {
    s.(pen := s.pen.(x := Wrap16(s.pen.x + w), rowOpen := true))
  }

  function WrapIfNeeded(g: Page, s: Layout, w: nat): Layout {
    if s.pen.x > Indent(s) && s.pen.x + w > RIGHT then Newline(g, s) else s
  }

  function PaintBg(g: Page, s: Layout, x: int, w: int, luma: nat): Layout {
    if g.cfg.dither then Put(g, s, Texture(x, w, RowHeight(g, s), luma))
    else PutIf(g, s, luma < 128, Fill(x, w, RowHeight(g, s), true))
  }

  // ---- Runs -----------------------------------------------------------

  predicate Blankish(b: bv8) {
    b == 0x20 || b == 0x09
  }

  /** The bytes of the sequence at k. */
  function ChunkAt(t: seq<bv8>, k: nat): seq<bv8>
    requires k < |t|
  {
    t[k..Min(k + SeqLen(t[k]), |t|)]
  }

  function FaceOf(g: Page, s: Layout, bytes: seq<bv8>): Face {
    if 1 <= s.pen.head <= 3 then HeadFace(s.pen.head)
    else if s.pen.bold && g.cfg.has(BoldInline, NextCp(bytes, 0).0) then BoldInline
    else Body
  }

  function PutGlyph(g: Page, s: Layout, bytes: seq<bv8>, invert: bool): Layout {
    Put(g, s, Glyph(FaceOf(g, s, bytes), s.pen.x, bytes, !invert))
  }

  function SkipBlankish(t: seq<bv8>, i: nat): nat
    decreases |t| - i
  {
    if i < |t| && Blankish(t[i]) then SkipBlankish(t, i + 1) else i
  }

  function WordEnd(t: seq<bv8>, w: nat): nat
    decreases |t| - w
  {
    if w < |t| && !Blankish(t[w]) then WordEnd(t, w + SeqLen(t[w])) else w
  }

  /** Room for a word on a whole row. */
  function Usable(s: Layout): nat {
    CONTENT_W - (Indent(s) - MARGIN_X)
  }

  // A token too long for any row is broken at the margin, glyph by glyph, leading spaces included.
  function LongWord(g: Page, s: Layout, t: seq<bv8>, k: nat, w: nat, invert: bool): Layout
    requires w <= |t|
    decreases w - k
  {
    if k < w then
      var s1 := WrapIfNeeded(g, s, Pace(s));
      LongWord(g, Moved(PutGlyph(g, s1, ChunkAt(t, k), invert), Pace(s1)), t, k + SeqLen(t[k]), w, invert)
    else s
  }

  function CellOf(g: Page, s: Layout, bytes: seq<bv8>, invert: bool): Layout {
    var blank := |bytes| == 1 && Blankish(bytes[0]);
    var s1 :=
      if s.pen.hasBg then
        if blank then PaintBg(g, s, s.pen.x, Pace(s), s.pen.bgLuma)
        else Put(g, s, Fill(s.pen.x, Pace(s), RowHeight(g, s), invert))
      else PutIf(g, s, invert, Fill(s.pen.x, Pace(s), RowHeight(g, s), true));
    var s2 := if blank then s1 else PutGlyph(g, s1, bytes, invert);
    PutIf(g, s2, s.pen.underline, Rule(s.pen.x, RowHeight(g, s) - 2, Pace(s), !invert))
  }

  function Word(g: Page, s: Layout, t: seq<bv8>, k: nat, w: nat, invert: bool): Layout
    requires w <= |t|
    decreases w - k
  {
    if k < w then
      Word(g, Moved(CellOf(g, s, ChunkAt(t, k), invert), Pace(s)), t, k + SeqLen(t[k]), w, invert)
    else s
  }

  // Leading spaces carry the texture and the underline, and open the row.
  function Lead(g: Page, s: Layout, leadW: nat, invert: bool): Layout {
    var s1 := if s.pen.hasBg then PaintBg(g, s, s.pen.x, leadW, s.pen.bgLuma) else s;
    var s2 := PutIf(g, s1, s.pen.underline, Rule(s.pen.x, RowHeight(g, s) - 2, leadW, !invert));
    Moved(s2, leadW)
  }

  function LeadWidth(s: Layout, i: nat, sp: nat): nat {
    Wrap16((sp - i) * Pace(s))
  }

  function WordWidth(s: Layout, t: seq<bv8>, sp: nat, w: nat): nat
    requires w <= |t|
  {
    Wrap16(ChunkCount(t, sp, w) * Pace(s))
  }

  /** One word with the spaces in front of it: t[i..sp] spaces, t[sp..w] the word. */
  function Token(g: Page, s: Layout, t: seq<bv8>, i: nat, sp: nat, w: nat, invert: bool): Layout
    requires i <= sp <= w <= |t|
  {
    var leadW, wordW := LeadWidth(s, i, sp), WordWidth(s, t, sp, w);
    if wordW > Usable(s) then LongWord(g, s, t, i, w, invert)
    else
      var s1 :=
        if s.pen.x + leadW + wordW > RIGHT && s.pen.x > Indent(s) then Newline(g, s)
        else if leadW != 0 then Lead(g, s, leadW, invert)
        else s;
      Word(g, s1, t, sp, w, invert)
  }

  lemma {:induction false} SkipBlankishBounds(t: seq<bv8>, i: nat)
    ensures i <= SkipBlankish(t, i)
    ensures i <= |t| ==> SkipBlankish(t, i) <= |t|
    ensures forall j :: i <= j < SkipBlankish(t, i) ==> j < |t| && Blankish(t[j])
    ensures SkipBlankish(t, i) < |t| ==> !Blankish(t[SkipBlankish(t, i)])
    decreases |t| - i
  {
    if i < |t| && Blankish(t[i]) {
      SkipBlankishBounds(t, i + 1);
    }
  }

  lemma {:induction false} SkipKeepsChunks(t: seq<bv8>, i: nat)
    requires Chunked(t, i)
    ensures Chunked(t, SkipBlankish(t, i))
    decreases |t| - i
  {
    if i < |t| && Blankish(t[i]) {
      assert SeqLen(t[i]) == 1;
      SkipKeepsChunks(t, i + 1);
    }
  }

  lemma {:induction false} WordEndBounds(t: seq<bv8>, w: nat)
    requires Chunked(t, w)
    ensures w <= WordEnd(t, w) <= |t| && Chunked(t, WordEnd(t, w))
    ensures WordEnd(t, w) < |t| ==> Blankish(t[WordEnd(t, w)])
    decreases |t| - w
  {
    if w < |t| && !Blankish(t[w]) {
      WordEndBounds(t, w + SeqLen(t[w]));
    }
  }

  /** Where the token starting at i ends; it always takes at least one byte. */
  lemma TokenBounds(t: seq<bv8>, i: nat)
    requires Chunked(t, i) && i < |t|
    ensures var sp := SkipBlankish(t, i); var w := WordEnd(t, sp);
      i <= sp <= w <= |t| && i < w && Chunked(t, sp) && Chunked(t, w)
  {
    var sp := SkipBlankish(t, i);
    SkipBlankishBounds(t, i);
    SkipKeepsChunks(t, i);
    WordEndBounds(t, sp);
    if sp == i {
      WordEndBounds(t, i + SeqLen(t[i]));
    }
  }

  lemma {:induction false} BlankishReach(t: seq<bv8>, i: nat, sp: nat, e: nat)
    requires i <= sp <= e <= |t| && (forall j :: i <= j < sp ==> Blankish(t[j])) && Reaches(t, sp, e)
    ensures Reaches(t, i, e)
    decreases sp - i
  {
    if i < sp {
      assert SeqLen(t[i]) == 1;
      BlankishReach(t, i + 1, sp, e);
    }
  }

  lemma {:induction false} WordReach(t: seq<bv8>, sp: nat)
    requires Chunked(t, sp)
    ensures WordEnd(t, sp) <= |t| && Reaches(t, sp, WordEnd(t, sp))
    decreases |t| - sp
  {
    WordEndBounds(t, sp);
    if sp < |t| && !Blankish(t[sp]) {
      WordReach(t, sp + SeqLen(t[sp]));
      WordEndBounds(t, sp + SeqLen(t[sp]));
    }
  }

  /** A token is reached from its start by the walk. */
  lemma TokenReach(t: seq<bv8>, i: nat)
    requires Chunked(t, i) && i < |t|
    ensures var sp := SkipBlankish(t, i); var e := WordEnd(t, sp);
      i <= sp <= e <= |t| && i < e && Chunked(t, e) && Reaches(t, i, e) && Reaches(t, sp, e)
      && forall j :: i <= j < sp ==> Blankish(t[j])
  {
    TokenBounds(t, i);
    SkipBlankishBounds(t, i);
    WordReach(t, SkipBlankish(t, i));
    BlankishReach(t, i, SkipBlankish(t, i), WordEnd(t, SkipBlankish(t, i)));
  }

  function Tokens(g: Page, s: Layout, t: seq<bv8>, i: nat, invert: bool): Layout
    requires Chunked(t, i)
    decreases |t| - i
  {
    if i < |t| then
      TokenBounds(t, i);
      var sp := SkipBlankish(t, i);
      var w := WordEnd(t, sp);
      Tokens(g, Token(g, s, t, i, sp, w, invert), t, w, invert)
    else s
  }

  function Clipped(g: Page, s: Layout, invert: bool): Layout {
    var s1 := Put(g, s, Fill(RIGHT - FONT_ADVANCE, FONT_ADVANCE, RowHeight(g, s), invert));
    Opened(Put(g, s1, Symbol(RIGHT - FONT_ADVANCE, [0xC2, 0xBB], !invert)))
  }

  function LiteralCellOf(g: Page, s: Layout, bytes: seq<bv8>, invert: bool): Layout {
    var s1 := PutIf(g, s, invert, Fill(s.pen.x, FONT_ADVANCE, RowHeight(g, s), true));
    Moved(Put(g, s1, Glyph(Body, s.pen.x, bytes, !invert)), FONT_ADVANCE)
  }

  // A literal row is drawn as it is and clipped, with a mark in the last column.
  function LiteralFrom(g: Page, s: Layout, t: seq<bv8>, k: nat, invert: bool): Layout
    decreases |t| - k
  {
    if k < |t| then
      if s.pen.x + FONT_ADVANCE > RIGHT then
        Clipped(g, s, invert)
      else
        LiteralFrom(g, LiteralCellOf(g, s, ChunkAt(t, k), invert), t, k + SeqLen(t[k]), invert)
    else s
  }

  function ToMargin(s: Layout): Layout {
    if !s.pen.rowOpen then s.(pen := s.pen.(x := Indent(s))) else s
  }

  function PullBack(s: Layout): Layout {
    if !s.pen.rowOpen && s.pen.x < Indent(s) then s.(pen := s.pen.(x := Indent(s))) else s
  }

  function EmitRun(g: Page, s: Layout, t: seq<bv8>, invert: bool): Layout
    requires Chunked(t, 0)
  {
    if s.pen.literal then LiteralFrom(g, ToMargin(s), t, 0, invert)
    else Tokens(g, PullBack(s), t, 0, invert)
  }

  // ---- Text -----------------------------------------------------------

  function AlignedX(s: Layout, t: seq<bv8>, align: Align): U16 {
    var w := Wrap16(Cells(t) * Pace(s));
    var avail := RIGHT - Indent(s);
    if s.pen.rowOpen || align == Left || w > avail then s.pen.x
    else if align == Center then Indent(s) + (avail - w) / 2
    else RIGHT - w
  }

  function Aligned(s: Layout, t: seq<bv8>, align: Align): Layout {
    s.(pen := s.pen.(x := AlignedX(s, t, align)))
  }

  predicate AllIn(g: Page, face: Face, t: seq<bv8>, k: nat)
    decreases |t| - k
  {
    k < |t| ==> g.cfg.has(face, InlineCp(t, k)) && AllIn(g, face, t, k + SeqLen(t[k]))
  }

  function HeadWanted(depth: nat): nat {
    if depth <= 1 then 1 else if depth == 2 then 2 else 3
  }

  /** A heading on a fresh row takes its face only if the face carries the whole run. */
  function Headed(g: Page, s: Layout, t: seq<bv8>, style: Style): Layout {
    var want := HeadWanted(style.depth);
    if TakesHead(g, s.pen.rowOpen, t, style)
    then s.(pen := s.pen.(head := want, rowH := FaceHeight(HeadFace(want)) + g.cfg.leading))
    else s
  }

  predicate TakesHead(g: Page, rowOpen: bool, t: seq<bv8>, style: Style) {
    g.cfg.head2x && style.heading && !rowOpen && |t| > 0 && AllIn(g, HeadFace(HeadWanted(style.depth)), t, 0)
  }

  function Styled(g: Page, s: Layout, t: seq<bv8>, style: Style): Layout {
    var s1 := ToMargin(s.(pen := s.pen.(depth := style.depth, blankPending := false, literal := style.literal)));
    var s2 := Aligned(s1, t, style.align);
    var s3 := s2.(pen := s2.pen.(hasBg := HasBg(style.bg), bgLuma := Luma(style.bg)));
    var s4 := Headed(g, s3, t, style);
    s4.(pen := s4.pen.(bold := style.bold && s4.pen.head == 0, underline := style.underline,
        headRule := g.cfg.stepped && style.heading && style.depth >= 2 && s4.pen.head == 0,
        invert := HasBg(style.bg) && Luma(style.bg) < 128))
  }

  function OnText(g: Page, s: Layout, t: seq<bv8>, style: Style): Layout
    requires Chunked(t, 0)
  {
    var s1 := Styled(g, s, t, style);
    EmitRun(g, s1, t, s1.pen.invert)
  }

  function OnLink(g: Page, s: Layout, caption: seq<bv8>, target: seq<bv8>, style: Style): Layout
    requires Chunked(caption, 0)
  {
    var s1 := ToMargin(Deepened(s, style.depth));
    var s2 := EmitRun(g, s1, caption, s1.pen.invert);
    Put(g, s2, Link(s1.pen.x, ScreenY(g.view, s1.pen.y), if s2.pen.x > s1.pen.x then s2.pen.x - s1.pen.x else 0, RowHeight(g, s2), target))
  }

  function DividerFrom(g: Page, s: Layout, x: nat, bytes: seq<bv8>): Layout
    decreases RIGHT - x, |bytes|
  {
    if x + FONT_ADVANCE <= RIGHT
    then DividerFrom(g, Put(g, s, Symbol(x, bytes, true)), x + FONT_ADVANCE, bytes)
    else s
  }

  function OnDivider(g: Page, s: Layout, ch: bv32, style: Style): Layout {
    var s1 := ToMargin(Deepened(s, style.depth));
    Opened(DividerFrom(g, s1, Indent(s1), DividerBytes(ch)))
  }

  // ---- Fields ---------------------------------------------------------

  function FieldWidth(f: Field): nat {
    if f.width == 0 then 1 else f.width
  }

  /** The bar under a text field; sixteen-bit, so it wraps when the pen stands beyond the right margin. */
  function BarWidth(s: Layout, f: Field): nat {
    if s.pen.x + 6 * FieldWidth(f) <= RIGHT then 6 * FieldWidth(f) else Wrap16(RIGHT - s.pen.x)
  }

  function FieldCell(g: Page, s: Layout, f: Field, vk: nat, hasBg: bool, ink: bool): Layout {
    if vk < |f.value| then Put(g, s, Symbol(s.pen.x, if f.masked then [0x2A] else ChunkAt(f.value, vk), ink))
    else PutIf(g, s, !hasBg, Symbol(s.pen.x, [0x5F], true))
  }

  function FieldCols(g: Page, s: Layout, f: Field, col: nat, vk: nat, hasBg: bool, ink: bool): Layout
    decreases f, FieldWidth(f) - col
  {
    if col < FieldWidth(f) && s.pen.x + FONT_ADVANCE <= RIGHT then
      var s1 := FieldCell(g, s, f, vk, hasBg, ink);
      FieldCols(g, Moved(s1, FONT_ADVANCE), f, col + 1,
                if vk < |f.value| then vk + SeqLen(f.value[vk]) else vk, hasBg, ink)
    else s
  }

  function OnTextField(g: Page, s: Layout, f: Field, style: Style): Layout {
    var hasBg := HasBg(style.bg);
    var luma := if hasBg then Luma(style.bg) else 255;
    var dark := hasBg && luma < 128;
    var s1 :=
      if dark then Put(g, s, Fill(s.pen.x, BarWidth(s, f), RowHeight(g, s), true))
      else if hasBg then PaintBg(g, s, s.pen.x, BarWidth(s, f), luma)
      else s;
    FieldCols(g, s1, f, 0, 0, hasBg, !dark)
  }

  function OnMark(g: Page, s: Layout, f: Field): Layout {
    var s1 :=
      if f.kind == Radio
      then Put(g, s, Symbol(s.pen.x, if f.prechecked then [0xE2, 0x97, 0x8F] else [0xE2, 0x97, 0x8B], !s.pen.invert))
      else PutIf(g, Put(g, s, Symbol(s.pen.x, [0xE2, 0x96, 0xA1], !s.pen.invert)), f.prechecked,
                 Symbol(s.pen.x, [0xE2, 0x9C, 0x93], !s.pen.invert));
    Moved(s1, FONT_ADVANCE)
  }

  function OneSpace(): (t: seq<bv8>)
    ensures Chunked(t, 0)
  {
    [0x20]
  }

  function OnField(g: Page, s: Layout, f: Field, style: Style): Layout
    requires Chunked(f.caption, 0)
  {
    var s1 := ToMargin(Deepened(s, style.depth));
    if f.kind == TextField then OnTextField(g, s1, f, style)
    else
      var s2 := OnMark(g, s1, f);
      if f.caption == [] then s2
      else
        var s3 := EmitRun(g, s2, OneSpace(), s2.pen.invert);
        EmitRun(g, s3, f.caption, s3.pen.invert)
  }

  // ---- Line ends and blank lines --------------------------------------

  // A fallback heading is ruled across the page at depth two, under its own text below that.
  function RuleWidth(s: Layout, style: Style): nat {
    if style.depth <= 2 then RIGHT - Indent(s) else Wrap16(s.pen.x - Indent(s))
  }

  function Closed(g: Page, s: Layout, style: Style, head: nat): Layout {
    var s1 := Newline(g, s);
    var gap := if !style.heading then 0 else if head == 1 then HEAD_GAP_BIG else PARA_GAP;
    s1.(pen := s1.pen.(headRule := false, rowH := 0, head := 0, bold := false, y := s1.pen.y + gap, invert := false))
  }

  function OnLineEnd(g: Page, s: Layout, style: Style): Layout {
    var s1 := Deepened(s, style.depth);
    var s2 := PutIf(g, s1, s1.pen.headRule && s1.pen.rowOpen,
                    Rule(Indent(s1), RowHeight(g, s1) - 1, RuleWidth(s1, style), true));
    Closed(g, s2, style, s.pen.head)
  }

  function OnBlank(g: Page, s: Layout): Layout {
    if s.pen.blankPending then s else s.(pen := s.pen.(y := s.pen.y + LineHeight(g), blankPending := true))
  }

  // ---- Tables ---------------------------------------------------------

  type Row = seq<seq<bv8>>

  predicate TableShape(rows: seq<Row>, widths: seq<nat>) {
    |widths| <= T_COLS && |rows| <= T_ROWS
    && forall r :: 0 <= r < |rows| ==> |rows[r]| == |widths| && RowChunked(rows[r])
  }

  /** The widest of a column's first r cells, in codepoints. */
  function WidestCell(rows: seq<Row>, c: nat, r: nat): nat
    requires r <= |rows| && forall k :: 0 <= k < |rows| ==> c < |rows[k]|
  {
    if r == 0 then 0 else Max(WidestCell(rows, c, r - 1), Cells(rows[r - 1][c]))
  }

  /** Each column's natural width is that of its widest cell. */
  predicate Natural(rows: seq<Row>, widths: seq<nat>)
    requires TableShape(rows, widths)
  {
    forall c :: 0 <= c < |widths| ==> widths[c] == WidestCell(rows, c, |rows|)
  }

  predicate RowChunked(row: Row) {
    forall c :: 0 <= c < |row| ==> Chunked(row[c], 0)
  }

  function TableAvail(s: Layout): nat {
    (RIGHT - Indent(s)) / 6
  }

  /** How many lines the tallest of the first c cells needs. */
  function RowLines(row: Row, fit: seq<nat>, c: nat): nat
    requires c <= |row| == |fit|
  {
    if c == 0 then 1
    else
      var before := RowLines(row, fit, c - 1);
      if row[c - 1] == [] || fit[c - 1] == 0 then before
      else Max(before, CappedLines(row[c - 1], fit[c - 1]))
  }

  function Slice(p: seq<bv8>, w: nat, ln: nat): (t: seq<bv8>)
    requires Chunked(p, 0)
    ensures Chunked(t, 0)
  {
    LineStartChunked(p, w, ln);
    var from := LineStart(p, w, ln);
    LineShape(p, from, w);
    SliceChunked(p, from, BreakAt(p, from, w));
    p[from..BreakAt(p, from, w)]
  }

  lemma {:induction false} SliceChunkedFrom(p: seq<bv8>, k: nat, from: nat, to: nat)
    requires from <= k <= to <= |p| && Chunked(p, k) && Reaches(p, k, to)
    ensures Chunked(p[from..to], k - from)
    decreases |p| - k
  {
    if k < to {
      SliceChunkedFrom(p, k + SeqLen(p[k]), from, to);
    }
  }

  lemma SliceChunked(p: seq<bv8>, from: nat, to: nat)
    requires from <= to <= |p| && Chunked(p, from) && Reaches(p, from, to)
    ensures Chunked(p[from..to], 0)
  {
    SliceChunkedFrom(p, from, from, to);
  }

  function CellsOn(g: Page, s: Layout, row: Row, fit: seq<nat>, ln: nat, c: nat, x: U16): Layout
    requires |row| == |fit| && RowChunked(row)
    decreases row, |row| - c
  {
    if c < |row| then
      var t := Slice(row[c], fit[c], ln);
      var s1 := if t == [] then s else EmitRun(g, AtColumn(s, x), t, false);
      CellsOn(g, s1, row, fit, ln, c + 1, Wrap16(x + (fit[c] + GAP) * 6))
    else s
  }

  /** Draws at the pen without another look at the window. */
  function PutAnyway(g: Page, s: Layout, shape: Shape): Layout {
    s.(log := s.log + [Draw(ScreenY(g.view, s.pen.y), RowHeight(g, s), shape)])
  }

  // A one-pixel separator in each gutter, even where a wrap has pushed the line out of sight.
  function Gutters(g: Page, s: Layout, fit: seq<nat>, c: nat, x: U16): Layout
    decreases fit, |fit| - c
  {
    if c + 1 < |fit| then
      var x' := Wrap16(x + (fit[c] + GAP) * 6);
      Gutters(g, PutAnyway(g, s, Fill(Wrap16(x' - 4), 1, LineHeight(g), true)), fit, c + 1, x')
    else s
  }

  function LineDrawn(g: Page, s: Layout, row: Row, fit: seq<nat>, ln: nat): Layout
    requires |row| == |fit| && RowChunked(row)
  {
    Gutters(g, CellsOn(g, s, row, fit, ln, 0, Indent(s)), fit, 0, Indent(s))
  }

  /** One line of a table row; its cells are laid out only when the line is in view. */
  function TableLine(g: Page, s: Layout, row: Row, fit: seq<nat>, ln: nat): Layout
    requires |row| == |fit| && RowChunked(row)
  {
    LineDone(g, if LaidOut(g.view, s.pen.y) then LineDrawn(g, s, row, fit, ln) else s)
  }

  function LineDone(g: Page, s: Layout): Layout {
    s.(pen := s.pen.(y := s.pen.y + LineHeight(g), rowOpen := false, x := Indent(s)))
  }

  function TableLines(g: Page, s: Layout, row: Row, fit: seq<nat>, ln: nat, lines: nat): Layout
    requires |row| == |fit| && RowChunked(row)
    decreases lines - ln
  {
    if ln < lines then TableLines(g, TableLine(g, s, row, fit, ln), row, fit, ln + 1, lines) else s
  }

  function TableRow(g: Page, s: Layout, row: Row, fit: seq<nat>, header: bool): Layout
    requires |row| == |fit| && RowChunked(row)
  {
    var s1 := TableLines(g, s, row, fit, 0, RowLines(row, fit, |row|));
    PutIf(g, s1, header, Rule(Indent(s1), -1, RIGHT - Indent(s1), true))
  }

  function TableRows(g: Page, s: Layout, rows: seq<Row>, fit: seq<nat>, r: nat): Layout
    requires TableShape(rows, fit)
    decreases rows, |rows| - r
  {
    if r < |rows| then TableRows(g, TableRow(g, s, rows[r], fit, r == 0), rows, fit, r + 1) else s
  }

  function TableFlush(g: Page, s: Layout, rows: seq<Row>, widths: seq<nat>): Layout
    requires TableShape(rows, widths)
  {
    if rows == [] || widths == [] then s
    else
      var fit := Fitted(widths, TableAvail(s));
      var s1 := TableRows(g, s, rows, fit, 0);
      var s2 := Put(g, s1, Rule(Indent(s1), 0, RIGHT - Indent(s1), true));
      s2.(pen := s2.pen.(y := s2.pen.y + PARA_GAP))
  }

  // ---- Images, partials and the step ----------------------------------

  function Ascii(t: seq<bv8>): (r: seq<bv8>)
    requires |t| <= 6 && forall j :: 0 <= j < |t| ==> t[j] < 0x80
    ensures r == t && Chunked(r, 0)
  {
    AsciiChunked(t, 0);
    t
  }

  lemma {:induction false} AsciiChunked(t: seq<bv8>, k: nat)
    requires k <= |t| && forall j :: 0 <= j < |t| ==> t[j] < 0x80
    ensures Chunked(t, k)
    decreases |t| - k
  {
    if k < |t| {
      AsciiChunked(t, k + 1);
    }
  }

  function OnImage(g: Page, s: Layout, alt: seq<bv8>, url: seq<bv8>, style: Style): Layout
    requires Chunked(alt, 0) && Chunked(url, 0)
  {
    var s1 := Deepened(s, style.depth);
    var s2 := EmitRun(g, s1, Ascii([0x5B, 0x69, 0x6D, 0x67, 0x5D, 0x20]), s1.pen.invert);
    EmitRun(g, s2, if alt != [] then alt else url, s2.pen.invert)
  }

  function OnPartial(g: Page, s: Layout, url: seq<bv8>, style: Style): Layout
    requires Chunked(url, 0)
  {
    var s1 := Deepened(s, style.depth);
    OnLink(g, EmitRun(g, s1, Ascii([0x5B, 0x2B, 0x5D, 0x20]), s1.pen.invert), url, url, style)
  }

  /** Every run the callback carries is well-formed text; a table is at most sixteen rows of six, with its
      columns' natural widths. */
  predicate WellFormed(cb: Callback) {
    match cb
    case Text(t, _) => Chunked(t, 0)
    case LinkTo(caption, _, _) => Chunked(caption, 0)
    case FieldOf(f, _) => Chunked(f.caption, 0)
    case Table(rows, widths, _) => TableShape(rows, widths) && Natural(rows, widths)
    case Image(alt, url, _) => Chunked(alt, 0) && Chunked(url, 0)
    case Partial(url, _) => Chunked(url, 0)
    case _ => true
  }

  function Step(g: Page, s: Layout, cb: Callback): Layout
    requires WellFormed(cb)
  {
    match cb
    case Text(t, style) => OnText(g, s, t, style)
    case LinkTo(caption, target, style) => OnLink(g, s, caption, target, style)
    case Divider(ch, style) => OnDivider(g, s, ch, style)
    case FieldOf(f, style) => OnField(g, s, f, style)
    case LineEnd(style) => OnLineEnd(g, s, style)
    case Table(rows, widths, style) => TableFlush(g, Deepened(s, style.depth), rows, widths)
    case Image(alt, url, style) => OnImage(g, s, alt, url, style)
    case Partial(url, style) => OnPartial(g, s, url, style)
    case Blank => OnBlank(g, s)
  }

  function Run(g: Page, s: Layout, cbs: seq<Callback>): Layout
    requires forall i :: 0 <= i < |cbs| ==> WellFormed(cbs[i])
    decreases |cbs|
  {
    if cbs == [] then s else Run(g, Step(g, s, cbs[0]), cbs[1..])
  }
}
