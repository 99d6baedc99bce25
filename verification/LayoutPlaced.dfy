// Where the characters of a run land, each in its own cell.
module LayoutPlaced {
  import opened Geometry
  import opened Utf8
  import opened Chunks
  import opened Arith
  import opened LayoutTypes
  import opened LayoutSpec
  import opened LayoutWalk
  import opened LayoutText

  /** A character on the picture: its row, its column, its bytes and its colour. */
  datatype Mark = Mark(row: nat, x: int, bytes: seq<bv8>, black: bool)

  function GlyphMark(d: Draw): seq<Mark> {
    if d.shape.Glyph? then [Mark(d.row, d.shape.x, d.shape.bytes, d.shape.black)] else []
  }

  /** The glyphs of a log, in order. */
  function Glyphs(log: seq<Draw>): seq<Mark>
    decreases |log|
  {
    if log == [] then [] else Glyphs(log[..|log| - 1]) + GlyphMark(log[|log| - 1])
  }

  /** A line typed from column x on: one cell of width p a codepoint, and blanks leave theirs empty. */
  function Typed(t: seq<bv8>, k: nat, e: nat, row: nat, x: int, p: nat, black: bool): seq<Mark>
    requires e <= |t|
    decreases e - k
  {
    if k < e then TypedOne(t, k, row, x, black) + Typed(t, k + SeqLen(t[k]), e, row, x + p, p, black) else []
  }

  function TypedOne(t: seq<bv8>, k: nat, row: nat, x: int, black: bool): seq<Mark>
    requires k < |t|
  {
    if BlankChunk(ChunkAt(t, k)) then [] else [Mark(row, x, ChunkAt(t, k), black)]
  }

  lemma Typing(t: seq<bv8>, k: nat, e: nat, row: nat, x: int, p: nat, black: bool)
    requires k < e <= |t|
    ensures Typed(t, k, e, row, x, p, black) == TypedOne(t, k, row, x, black) + Typed(t, k + SeqLen(t[k]), e, row, x + p, p, black)
  {
  }

  lemma GlyphsSnoc(log: seq<Draw>, d: Draw)
    ensures Glyphs(log + [d]) == Glyphs(log) + GlyphMark(d)
  {
    assert (log + [d])[..|log|] == log;
  }

  lemma PutTypes(g: Page, s: Layout, when: bool, shape: Shape)
    requires Seen(g.view, s.pen.y)
    ensures shape.Glyph? ==>
      Glyphs(Put(g, s, shape).log) == Glyphs(s.log) + [Mark(ScreenY(g.view, s.pen.y), shape.x, shape.bytes, shape.black)]
    ensures !shape.Glyph? ==> Glyphs(Put(g, s, shape).log) == Glyphs(s.log) == Glyphs(PutIf(g, s, when, shape).log)
  {
    hide Glyphs, ScreenY;
    GlyphsSnoc(s.log, Draw(ScreenY(g.view, s.pen.y), RowHeight(g, s), shape));
    assert Glyphs(s.log) + [] == Glyphs(s.log);
  }

  lemma PaintTypes(g: Page, s: Layout, x: int, w: int, luma: nat)
    requires Seen(g.view, s.pen.y)
    ensures Glyphs(PaintBg(g, s, x, w, luma).log) == Glyphs(s.log)
  {
    hide Glyphs, Seen;
    PutTypes(g, s, true, Texture(x, w, RowHeight(g, s), luma));
    PutTypes(g, s, luma < 128, Fill(x, w, RowHeight(g, s), true));
  }

  lemma CellTypes(g: Page, s: Layout, t: seq<bv8>, k: nat, invert: bool)
    requires Seen(g.view, s.pen.y) && k < |t|
    ensures Glyphs(CellOf(g, s, ChunkAt(t, k), invert).log)
         == Glyphs(s.log) + TypedOne(t, k, ScreenY(g.view, s.pen.y), s.pen.x, !invert)
  {
    hide Glyphs, PaintBg, Seen, ScreenY, ChunkAt, Put, PutIf;
    var bytes := ChunkAt(t, k);
    var blank := |bytes| == 1 && Blankish(bytes[0]);
    var s1 := Ground(g, s, blank, invert);
    GroundTypes(g, s, blank, invert);
    var s2 := if blank then s1 else PutGlyph(g, s1, bytes, invert);
    PutTypes(g, s1, true, Glyph(FaceOf(g, s1, bytes), s1.pen.x, bytes, !invert));
    GlyphPen(g, s1, bytes, invert);
    PutTypes(g, s2, s.pen.underline, Rule(s.pen.x, RowHeight(g, s) - 2, Pace(s), !invert));
    assert Glyphs(s.log) + [] == Glyphs(s.log);
  }

  lemma GlyphPen(g: Page, s: Layout, bytes: seq<bv8>, invert: bool)
    ensures PutGlyph(g, s, bytes, invert).pen == s.pen
  {
  }

  lemma GroundTypes(g: Page, s: Layout, blank: bool, invert: bool)
    requires Seen(g.view, s.pen.y)
    ensures Glyphs(Ground(g, s, blank, invert).log) == Glyphs(s.log) && Ground(g, s, blank, invert).pen == s.pen
  {
    hide Glyphs, Seen;
    PaintTypes(g, s, s.pen.x, Pace(s), s.pen.bgLuma);
    PutTypes(g, s, invert, Fill(s.pen.x, Pace(s), RowHeight(g, s), invert));
    PutTypes(g, s, invert, Fill(s.pen.x, Pace(s), RowHeight(g, s), true));
  }

  lemma Regrouped(a: seq<Mark>, b: seq<Mark>, c: seq<Mark>)
    ensures (a + b) + c == a + (b + c)
  {
  }

  // A word is typed from the pen on.
  lemma {:induction false} WordTypes(g: Page, s: Layout, t: seq<bv8>, k: nat, e: nat, invert: bool)
    requires Seen(g.view, s.pen.y) && e <= |t| && s.pen.x + ChunkCount(t, k, e) * Pace(s) <= 0xFFFF
    ensures Glyphs(Word(g, s, t, k, e, invert).log)
         == Glyphs(s.log) + Typed(t, k, e, ScreenY(g.view, s.pen.y), s.pen.x, Pace(s), !invert)
    decreases e - k
  {
    hide Glyphs, CellOf, Pace, SeqLen, Moved, Seen, ScreenY, TypedOne, Typed, ChunkAt;
    if k < e {
      var m := CellStep(g, s, ChunkAt(t, k), invert);
      CountTimes(t, k, e, Pace(s));
      CellTypes(g, s, t, k, invert);
      MovedLog(CellOf(g, s, ChunkAt(t, k), invert), Pace(s));
      WordTypes(g, m, t, k + SeqLen(t[k]), e, invert);
      Typing(t, k, e, ScreenY(g.view, s.pen.y), s.pen.x, Pace(s), !invert);
      Regrouped(Glyphs(s.log), TypedOne(t, k, ScreenY(g.view, s.pen.y), s.pen.x, !invert),
                Typed(t, k + SeqLen(t[k]), e, ScreenY(g.view, s.pen.y), s.pen.x + Pace(s), Pace(s), !invert));
    } else {
      NothingTyped(t, k, e, ScreenY(g.view, s.pen.y), s.pen.x, Pace(s), !invert);
      assert Glyphs(s.log) + [] == Glyphs(s.log);
    }
  }

  lemma MovedLog(s: Layout, w: nat)
    ensures Moved(s, w).log == s.log
  {
  }

  lemma NothingTyped(t: seq<bv8>, k: nat, e: nat, row: nat, x: int, p: nat, black: bool)
    requires e <= k && e <= |t|
    ensures Typed(t, k, e, row, x, p, black) == []
  {
  }

  // Leading blanks only move the typing on.
  lemma {:induction false} BlanksType(t: seq<bv8>, i: nat, sp: nat, e: nat, row: nat, x: int, p: nat, black: bool)
    requires i <= sp <= e <= |t| && forall j :: i <= j < sp ==> Blankish(t[j])
    ensures Typed(t, i, e, row, x, p, black) == Typed(t, sp, e, row, x + (sp - i) * p, p, black)
    decreases sp - i
  {
    hide TypedOne, Typed;
    if i < sp {
      BlankTypesNothing(t, i, row, x, black);
      Typing(t, i, e, row, x, p, black);
      BlanksType(t, i + 1, sp, e, row, x + p, p, black);
      Distributes(sp - i - 1, 1, p);
      assert [] + Typed(t, i + 1, e, row, x + p, p, black) == Typed(t, i + 1, e, row, x + p, p, black);
    }
  }

  lemma BlankTypesNothing(t: seq<bv8>, i: nat, row: nat, x: int, black: bool)
    requires i < |t| && Blankish(t[i])
    ensures SeqLen(t[i]) == 1 && TypedOne(t, i, row, x, black) == []
  {
  }

  lemma {:induction false} TypedSplit(t: seq<bv8>, i: nat, m: nat, e: nat, row: nat, x: int, p: nat, black: bool)
    requires i <= m <= e <= |t| && Reaches(t, i, m)
    ensures Typed(t, i, e, row, x, p, black)
         == Typed(t, i, m, row, x, p, black) + Typed(t, m, e, row, x + ChunkCount(t, i, m) * p, p, black)
    decreases m - i
  {
    hide TypedOne;
    if i < m {
      var next := i + SeqLen(t[i]);
      TypedSplit(t, next, m, e, row, x + p, p, black);
      CountTimes(t, i, m, p);
      Regrouped(TypedOne(t, i, row, x, black), Typed(t, next, m, row, x + p, p, black),
                Typed(t, m, e, row, x + p + ChunkCount(t, next, m) * p, p, black));
    } else {
      assert Typed(t, i, m, row, x, p, black) == [] && ChunkCount(t, i, m) * p == 0;
    }
  }

  lemma {:induction false} CountSplit(t: seq<bv8>, i: nat, m: nat, e: nat)
    requires i <= m <= e <= |t| && Reaches(t, i, m)
    ensures ChunkCount(t, i, e) == ChunkCount(t, i, m) + ChunkCount(t, m, e)
    decreases m - i
  {
    if i < m {
      CountSplit(t, i + SeqLen(t[i]), m, e);
    }
  }

  lemma LeadTypes(g: Page, s: Layout, leadW: nat, invert: bool)
    requires Seen(g.view, s.pen.y)
    ensures Glyphs(Lead(g, s, leadW, invert).log) == Glyphs(s.log)
    ensures Lead(g, s, leadW, invert).pen == s.pen.(x := Wrap16(s.pen.x + leadW), rowOpen := true)
  {
    hide Glyphs, Seen, ScreenY;
    PaintTypes(g, s, s.pen.x, leadW, s.pen.bgLuma);
    var s1 := if s.pen.hasBg then PaintBg(g, s, s.pen.x, leadW, s.pen.bgLuma) else s;
    PutTypes(g, s1, s.pen.underline, Rule(s.pen.x, RowHeight(g, s) - 2, leadW, !invert));
  }

  /** What a stretch of text that fits does: it is typed where the pen stands, and the pen ends after it. */
  predicate Types(g: Page, a: Layout, b: Layout, t: seq<bv8>, i: nat, e: nat, invert: bool)
    requires e <= |t|
  {
    && Glyphs(b.log) == Glyphs(a.log) + Typed(t, i, e, ScreenY(g.view, a.pen.y), a.pen.x, Pace(a), !invert)
    && b.pen == a.pen.(x := b.pen.x, rowOpen := b.pen.rowOpen)
    && b.pen.x == a.pen.x + ChunkCount(t, i, e) * Pace(a)
  }

  lemma TypesTrans(g: Page, a: Layout, b: Layout, c: Layout, t: seq<bv8>, i: nat, m: nat, e: nat, invert: bool)
    requires i <= m <= e <= |t| && Reaches(t, i, m)
    requires Types(g, a, b, t, i, m, invert) && Types(g, b, c, t, m, e, invert)
    ensures Types(g, a, c, t, i, e, invert)
  {
    hide Glyphs, Pace, ScreenY, Typed, ChunkCount;
    SamePace(a, b);
    var p, row := Pace(a), ScreenY(g.view, a.pen.y);
    CountSplit(t, i, m, e);
    Distributes(ChunkCount(t, i, m), ChunkCount(t, m, e), p);
    TypedSplit(t, i, m, e, row, a.pen.x, p, !invert);
    Regrouped(Glyphs(a.log), Typed(t, i, m, row, a.pen.x, p, !invert), Typed(t, m, e, row, b.pen.x, p, !invert));
  }

  lemma BlanksStep(g: Page, s: Layout, t: seq<bv8>, i: nat, sp: nat, invert: bool)
    requires i <= sp <= |t| && forall j :: i <= j < sp ==> Blankish(t[j])
    requires Seen(g.view, s.pen.y) && s.pen.x + (sp - i) * Pace(s) <= 0xFFFF
    ensures LeadWidth(s, i, sp) == (sp - i) * Pace(s)
    ensures var s1 := if LeadWidth(s, i, sp) != 0 then Lead(g, s, LeadWidth(s, i, sp), invert) else s;
      Types(g, s, s1, t, i, sp, invert)
  {
    hide Glyphs, Pace, Lead, Seen, ScreenY, Typed, ChunkCount;
    var p := Pace(s);
    BlanksCount(t, i, sp, sp);
    NoChunksIn(t, sp);
    BlanksType(t, i, sp, sp, ScreenY(g.view, s.pen.y), s.pen.x, p, !invert);
    NothingTyped(t, sp, sp, ScreenY(g.view, s.pen.y), s.pen.x + (sp - i) * p, p, !invert);
    LeadTypes(g, s, (sp - i) * p, invert);
    assert Glyphs(s.log) + [] == Glyphs(s.log);
  }

  lemma WordStep(g: Page, s: Layout, t: seq<bv8>, sp: nat, e: nat, invert: bool)
    requires sp <= e <= |t| && Seen(g.view, s.pen.y) && s.pen.x + ChunkCount(t, sp, e) * Pace(s) <= 0xFFFF
    ensures Types(g, s, Word(g, s, t, sp, e, invert), t, sp, e, invert)
  {
    hide Glyphs, Pace, Word, Seen, ScreenY, Typed, ChunkCount;
    WordTypes(g, s, t, sp, e, invert);
    WordWalks(g, s, t, sp, e, invert);
  }

  lemma TokenTypes(g: Page, s: Layout, t: seq<bv8>, i: nat, sp: nat, e: nat, invert: bool)
    requires i <= sp <= e <= |t| && (forall j :: i <= j < sp ==> Blankish(t[j])) && Reaches(t, i, sp)
    requires Seen(g.view, s.pen.y) && Indent(s) <= s.pen.x && s.pen.x + ChunkCount(t, i, e) * Pace(s) <= 398
    ensures Types(g, s, Token(g, s, t, i, sp, e, invert), t, i, e, invert)
  {
    hide Glyphs, Pace, Word, LongWord, Lead, Seen, ScreenY, Typed, ChunkCount, Types, Indent;
    BlanksCount(t, i, sp, e);
    Distributes(sp - i, ChunkCount(t, sp, e), Pace(s));
    BlanksStep(g, s, t, i, sp, invert);
    WordFits(s, t, sp, e);
    var s1 := if LeadWidth(s, i, sp) != 0 then Lead(g, s, LeadWidth(s, i, sp), invert) else s;
    TypesPen(g, s, s1, t, i, sp, invert);
    BlanksCount(t, i, sp, sp);
    NoChunksIn(t, sp);
    WordStep(g, s1, t, sp, e, invert);
    TypesTrans(g, s, s1, Word(g, s1, t, sp, e, invert), t, i, sp, e, invert);
  }

  lemma WordFits(s: Layout, t: seq<bv8>, sp: nat, e: nat)
    requires sp <= e <= |t| && ChunkCount(t, sp, e) * Pace(s) <= 398 - Indent(s)
    ensures WordWidth(s, t, sp, e) == ChunkCount(t, sp, e) * Pace(s) <= Usable(s)
  {
    hide Pace, ChunkCount;
  }

  lemma TypesPen(g: Page, a: Layout, b: Layout, t: seq<bv8>, i: nat, e: nat, invert: bool)
    requires e <= |t| && Types(g, a, b, t, i, e, invert)
    ensures Pace(b) == Pace(a) && Indent(b) == Indent(a) && b.pen.y == a.pen.y && b.pen.x == a.pen.x + ChunkCount(t, i, e) * Pace(a)
  {
    SamePace(a, b);
  }

  lemma NoChunksIn(t: seq<bv8>, e: nat)
    requires e <= |t|
    ensures ChunkCount(t, e, e) == 0
  {
  }

  /** Prose that fits what is left of its row is typed there, cell after cell. */
  lemma {:induction false} ProseTypes(g: Page, s: Layout, t: seq<bv8>, i: nat, invert: bool)
    requires Chunked(t, i) && Seen(g.view, s.pen.y) && Indent(s) <= s.pen.x && s.pen.x + ChunkCount(t, i, |t|) * Pace(s) <= 398
    ensures Types(g, s, Tokens(g, s, t, i, invert), t, i, |t|, invert)
    decreases |t| - i
  {
    hide Pace, Token, Seen, ChunkCount, Types, Indent;
    if i < |t| {
      TokenReach(t, i);
      var sp := SkipBlankish(t, i);
      var e := WordEnd(t, sp);
      NothingLeft(t, sp);
      BlanksReachEnd(t, i, sp);
      CountSplit(t, i, e, |t|);
      var p, n, m := Pace(s), ChunkCount(t, i, e), ChunkCount(t, e, |t|);
      Distributes(n, m, p);
      assert s.pen.x + n * p <= 398;
      TokenTypes(g, s, t, i, sp, e, invert);
      var s1 := Token(g, s, t, i, sp, e, invert);
      TypesPen(g, s, s1, t, i, e, invert);
      ProseTypes(g, s1, t, e, invert);
      TypesTrans(g, s, s1, Tokens(g, s1, t, e, invert), t, i, e, |t|, invert);
    } else {
      TypesNothing(g, s, t, i, invert);
    }
  }

  lemma NothingLeft(t: seq<bv8>, sp: nat)
    requires sp <= |t|
    ensures Reaches(t, sp, sp)
  {
  }

  lemma BlanksReachEnd(t: seq<bv8>, i: nat, sp: nat)
    requires i <= sp <= |t| && forall j :: i <= j < sp ==> Blankish(t[j])
    ensures Reaches(t, i, sp)
  {
    BlankishReach(t, i, sp, sp);
  }

  lemma TypesNothing(g: Page, s: Layout, t: seq<bv8>, i: nat, invert: bool)
    requires i >= |t|
    ensures Types(g, s, s, t, i, |t|, invert)
  {
    hide Glyphs, Pace, ScreenY;
    NothingTyped(t, i, |t|, ScreenY(g.view, s.pen.y), s.pen.x, Pace(s), !invert);
    NoChunks(t, i);
    assert Glyphs(s.log) + [] == Glyphs(s.log);
  }

  lemma NoChunks(t: seq<bv8>, i: nat)
    requires i >= |t|
    ensures ChunkCount(t, i, |t|) == 0
  {
  }
  // ---- Alignment ------------------------------------------------------

  /** A stretch of width w from x on stands as an alignment promises, between the left edge and column 398; a centred
      one to the pixel. */
  predicate Placed(align: Align, x: int, left: nat, w: nat) {
    match align
    case Left => x == left
    case Right => x + w == 398
    case Center => x - left <= 398 - (x + w) <= x - left + 1
  }

  function LeftEdge(depth: nat): nat {
    2 + 12 * if depth > 4 then 4 else depth
  }

  predicate DarkBg(style: Style) {
    HasBg(style.bg) && Luma(style.bg) < 128
  }

  // What the style makes of the pen when a row starts and no heading's face is taken.
  lemma StyledClosed(g: Page, s: Layout, t: seq<bv8>, style: Style)
    requires !s.pen.rowOpen && !TakesHead(g, false, t, style)
    ensures var b := Styled(g, s, t, style); var left := LeftEdge(style.depth); var w := Wrap16(Cells(t) * Pace(s));
      && b.log == s.log && b.pen.y == s.pen.y && !b.pen.rowOpen && b.pen.literal == style.literal && b.pen.invert == DarkBg(style)
      && Pace(b) == Pace(s) && Indent(b) == left && b.pen.x >= left
      && (w <= 398 - left ==> Placed(style.align, b.pen.x, left, w))
      && (w > 398 - left ==> b.pen.x == left)
  {
    hide Luma, HasBg, AllIn, Cells, TakesHead;
    var s1 := ToMargin(s.(pen := s.pen.(depth := style.depth, blankPending := false, literal := style.literal)));
    assert Pace(s1) == Pace(s) && Indent(s1) == LeftEdge(style.depth) == s1.pen.x;
  }

  lemma CellsAreChunks(t: seq<bv8>)
    ensures Cells(t) == ChunkCount(t, 0, |t|)
  {
    assert t[0..|t|] == t;
    CountIsCells(t, 0, 0, |t|);
  }

  /** What a run is wide in the face the pen has. */
  function RunWidth(s: Layout, t: seq<bv8>): nat {
    Cells(t) * Pace(s)
  }

  lemma TextIsProse(g: Page, s: Layout, t: seq<bv8>, style: Style)
    requires Chunked(t, 0) && !style.literal && !s.pen.rowOpen && !TakesHead(g, false, t, style)
    ensures var s1 := Styled(g, s, t, style); OnText(g, s, t, style) == Tokens(g, s1, t, 0, s1.pen.invert)
  {
    hide Tokens, TakesHead, Pace, Cells, Styled, Indent, LeftEdge, HasBg, Luma;
    StyledClosed(g, s, t, style);
  }

  /** Text that starts a row and takes no heading's face, when it fits, is typed there in one piece: from the left edge,
      up to the right margin, or with left and right gaps that differ by a pixel at most. */
  lemma AlignedLands(g: Page, s: Layout, t: seq<bv8>, style: Style)
    requires Chunked(t, 0) && !s.pen.rowOpen && Seen(g.view, s.pen.y) && !style.literal && !TakesHead(g, false, t, style)
    requires RunWidth(s, t) <= 398 - LeftEdge(style.depth)
    ensures var b := OnText(g, s, t, style); var x := b.pen.x - RunWidth(s, t);
      && b.pen.y == s.pen.y && Placed(style.align, x, LeftEdge(style.depth), RunWidth(s, t))
      && Glyphs(b.log) == Glyphs(s.log) + Typed(t, 0, |t|, ScreenY(g.view, s.pen.y), x, Pace(s), !DarkBg(style))
  {
    hide Glyphs, Typed, Seen, ScreenY, TakesHead, Pace, Cells, Styled, Tokens, DarkBg, LeftEdge, Indent, OnText, Placed, ChunkCount;
    StyledClosed(g, s, t, style);
    CellsAreChunks(t);
    TextIsProse(g, s, t, style);
    var s1 := Styled(g, s, t, style);
    PlacedFits(style.align, s1.pen.x, LeftEdge(style.depth), RunWidth(s, t));
    ProseTypes(g, s1, t, 0, s1.pen.invert);
  }

  lemma PlacedFits(align: Align, x: int, left: nat, w: nat)
    requires Placed(align, x, left, w) && left + w <= 398
    ensures left <= x && x + w <= 398
  {
  }

  lemma StyledOpen(g: Page, s: Layout, t: seq<bv8>, style: Style)
    requires s.pen.rowOpen
    ensures var b := Styled(g, s, t, style);
      && b.log == s.log && b.pen.y == s.pen.y && b.pen.x == s.pen.x && b.pen.rowOpen && b.pen.literal == style.literal
      && b.pen.invert == DarkBg(style) && Pace(b) == Pace(s) && Indent(b) == LeftEdge(style.depth)
  {
    hide Luma, HasBg, AllIn, Cells;
  }

  /** Text on a row that is open goes on where the pen stands, whatever its alignment and in the face the row has. */
  lemma OpenRowContinues(g: Page, s: Layout, t: seq<bv8>, style: Style)
    requires Chunked(t, 0) && s.pen.rowOpen && Seen(g.view, s.pen.y) && !style.literal
    requires LeftEdge(style.depth) <= s.pen.x && s.pen.x + RunWidth(s, t) <= 398
    ensures var b := OnText(g, s, t, style);
      && b.pen.y == s.pen.y && b.pen.x == s.pen.x + RunWidth(s, t)
      && Glyphs(b.log) == Glyphs(s.log) + Typed(t, 0, |t|, ScreenY(g.view, s.pen.y), s.pen.x, Pace(s), !DarkBg(style))
  {
    hide Glyphs, Typed, Seen, ScreenY, Pace, Cells, Styled, Tokens, DarkBg, LeftEdge, Indent, ChunkCount;
    StyledOpen(g, s, t, style);
    CellsAreChunks(t);
    ProseTypes(g, Styled(g, s, t, style), t, 0, DarkBg(style));
  }

  lemma {:induction false} GlyphsGrow(a: seq<Draw>, b: seq<Draw>)
    requires a <= b
    ensures Glyphs(a) <= Glyphs(b)
    decreases |b|
  {
    hide GlyphMark;
    if |a| < |b| {
      GlyphsGrow(a, b[..|b| - 1]);
    } else {
      assert a == b;
    }
  }

  /** The first character a stretch of the log adds. */
  predicate StartsWith(before: seq<Draw>, after: seq<Draw>, m: Mark) {
    Glyphs(before) + [m] <= Glyphs(after)
  }

  lemma StartStays(a: seq<Draw>, b: seq<Draw>, c: seq<Draw>, m: Mark)
    requires StartsWith(a, b, m) && b <= c
    ensures StartsWith(a, c, m)
  {
    hide Glyphs;
    GlyphsGrow(b, c);
  }

  // A word starts where the pen is, when it is not moved down.
  lemma LongStarts(g: Page, s: Layout, t: seq<bv8>, e: nat, invert: bool)
    requires 0 < e <= |t| && (s.pen.x == Indent(s) || s.pen.x + Pace(s) <= 398) && Seen(g.view, s.pen.y) && !BlankChunk(ChunkAt(t, 0))
    ensures StartsWith(s.log, LongWord(g, s, t, 0, e, invert).log, Mark(ScreenY(g.view, s.pen.y), s.pen.x, ChunkAt(t, 0), !invert))
  {
    hide Glyphs, Pace, Seen, ScreenY, ChunkAt, BlankChunk, SeqLen, Indent, FaceOf, Put;
    PutTypes(g, s, true, Glyph(FaceOf(g, s, ChunkAt(t, 0)), s.pen.x, ChunkAt(t, 0), !invert));
    var a := Moved(PutGlyph(g, s, ChunkAt(t, 0), invert), Pace(s));
    LongWordGrows(g, a, t, 0 + SeqLen(t[0]), e, invert);
    StartStays(s.log, a.log, LongWord(g, s, t, 0, e, invert).log, Mark(ScreenY(g.view, s.pen.y), s.pen.x, ChunkAt(t, 0), !invert));
  }

  lemma WordStarts(g: Page, s: Layout, t: seq<bv8>, e: nat, invert: bool)
    requires 0 < e <= |t| && Seen(g.view, s.pen.y) && !BlankChunk(ChunkAt(t, 0))
    ensures StartsWith(s.log, Word(g, s, t, 0, e, invert).log, Mark(ScreenY(g.view, s.pen.y), s.pen.x, ChunkAt(t, 0), !invert))
  {
    hide Glyphs, Pace, Seen, ScreenY, ChunkAt, BlankChunk, SeqLen, CellOf;
    CellTypes(g, s, t, 0, invert);
    var a := Moved(CellOf(g, s, ChunkAt(t, 0), invert), Pace(s));
    WordGrows(g, a, t, 0 + SeqLen(t[0]), e, invert);
    StartStays(s.log, a.log, Word(g, s, t, 0, e, invert).log, Mark(ScreenY(g.view, s.pen.y), s.pen.x, ChunkAt(t, 0), !invert));
  }

  // A run whose first token stays on its row starts at the pen.
  lemma RunStarts(g: Page, s: Layout, t: seq<bv8>, invert: bool)
    requires Chunked(t, 0) && t != [] && !Blankish(t[0]) && Seen(g.view, s.pen.y) && s.pen.x == Indent(s)
    ensures StartsWith(s.log, Tokens(g, s, t, 0, invert).log, Mark(ScreenY(g.view, s.pen.y), s.pen.x, ChunkAt(t, 0), !invert))
  {
    hide Glyphs, Pace, Word, LongWord, Seen, ScreenY, ChunkAt, BlankChunk, Indent;
    FirstIsNoBlank(t);
    TokenReach(t, 0);
    var e := WordEnd(t, 0);
    assert SkipBlankish(t, 0) == 0;
    LongStarts(g, s, t, e, invert);
    WordStarts(g, s, t, e, invert);
    var b := Token(g, s, t, 0, 0, e, invert);
    TokensGrow(g, b, t, e, invert);
    StartStays(s.log, b.log, Tokens(g, b, t, e, invert).log, Mark(ScreenY(g.view, s.pen.y), s.pen.x, ChunkAt(t, 0), !invert));
  }

  lemma FirstIsNoBlank(t: seq<bv8>)
    requires t != [] && !Blankish(t[0])
    ensures !BlankChunk(ChunkAt(t, 0))
  {
  }

  /** Text too wide for its row is not aligned at all: it starts at the left edge. */
  lemma WideTextStartsLeft(g: Page, s: Layout, t: seq<bv8>, style: Style)
    requires Chunked(t, 0) && t != [] && !Blankish(t[0])
    requires !s.pen.rowOpen && Seen(g.view, s.pen.y) && !style.literal && !TakesHead(g, false, t, style)
    requires 398 - LeftEdge(style.depth) < RunWidth(s, t) <= 0xFFFF
    ensures StartsWith(s.log, OnText(g, s, t, style).log, Mark(ScreenY(g.view, s.pen.y), LeftEdge(style.depth), ChunkAt(t, 0), !DarkBg(style)))
  {
    hide Glyphs, Seen, ScreenY, TakesHead, Pace, Cells, Styled, Tokens, DarkBg, LeftEdge, Indent, ChunkAt, OnText;
    StyledClosed(g, s, t, style);
    TextIsProse(g, s, t, style);
    var s1 := Styled(g, s, t, style);
    RunStarts(g, s1, t, s1.pen.invert);
  }

  // ---- Aligned headings -----------------------------------------------

  /** A heading's face, by depth. */
  function LadderFace(depth: nat): Face {
    if depth <= 1 then Big else if depth == 2 then BoldH2 else BoldH3
  }

  lemma StyledHeading(g: Page, s: Layout, t: seq<bv8>, style: Style)
    requires s.pen.head == 0 && !s.pen.rowOpen && TakesHead(g, false, t, style)
    ensures var b := Styled(g, s, t, style); var left := LeftEdge(style.depth); var w := Wrap16(6 * Cells(t));
      && b.log == s.log && b.pen.y == s.pen.y && !b.pen.rowOpen && b.pen.literal == style.literal && b.pen.invert == DarkBg(style)
      && Pace(b) == FaceWidth(LadderFace(style.depth)) && Indent(b) == left && b.pen.x >= left
      && (w <= 398 - left ==> Placed(style.align, b.pen.x, left, w))
      && (w > 398 - left ==> b.pen.x == left)
  {
    hide Luma, HasBg, AllIn, Cells, TakesHead;
    var s1 := ToMargin(s.(pen := s.pen.(depth := style.depth, blankPending := false, literal := style.literal)));
    assert Pace(s1) == 6 && Indent(s1) == LeftEdge(style.depth) == s1.pen.x;
  }

  /** One word: no blanks in it. */
  predicate OneWord(t: seq<bv8>) {
    t != [] && !Blankish(t[0]) && WordEnd(t, 0) == |t|
  }

  /** Where text starts is where its alignment promises. */
  predicate Lands(g: Page, s: Layout, b: Layout, align: Align, left: nat, w: nat) {
    |Glyphs(b.log)| > |Glyphs(s.log)|
    && var m := Glyphs(b.log)[|Glyphs(s.log)|];
      m.row == ScreenY(g.view, s.pen.y) && Placed(align, m.x, left, w)
  }
  // A heading's one word, when the face it is drawn in fits its row.
  lemma HeadingWord(g: Page, s: Layout, t: seq<bv8>, style: Style)
    requires Chunked(t, 0) && OneWord(t) && !style.literal
    requires s.pen.head == 0 && !s.pen.rowOpen && TakesHead(g, false, t, style)
    requires 6 * Cells(t) < Cells(t) * FaceWidth(LadderFace(style.depth)) <= 398 - LeftEdge(style.depth)
    ensures var s1 := Styled(g, s, t, style);
      OnText(g, s, t, style)
      == Word(g, if s1.pen.x + Cells(t) * FaceWidth(LadderFace(style.depth)) > 398 then Newline(g, s1) else s1, t, 0, |t|, s1.pen.invert)
  {
    hide TakesHead, Pace, Cells, Styled, Word, LeftEdge, DarkBg, Indent, LadderFace, Tokens, Newline, ChunkCount, FaceWidth, OnText, OneWord, Placed;
    StyledHeading(g, s, t, style);
    var s1, wide := Styled(g, s, t, style), Cells(t) * FaceWidth(LadderFace(style.depth));
    CellsAreChunks(t);
    HeadingIsProse(g, s, t, style);
    assert ChunkCount(t, 0, |t|) * Pace(s1) == wide;
    WordOnly(g, s1, t, s1.pen.invert);
    HeadingRoom(style, s1.pen.x, 6 * Cells(t), wide);
  }

  lemma HeadingIsProse(g: Page, s: Layout, t: seq<bv8>, style: Style)
    requires Chunked(t, 0) && !style.literal && s.pen.head == 0 && !s.pen.rowOpen && TakesHead(g, false, t, style)
    ensures var s1 := Styled(g, s, t, style); OnText(g, s, t, style) == Tokens(g, s1, t, 0, s1.pen.invert)
  {
    hide Tokens, TakesHead, Pace, Cells, Styled, Indent, LeftEdge, HasBg, Luma, LadderFace, FaceWidth;
    StyledHeading(g, s, t, style);
  }

  lemma HeadingRoom(style: Style, x: int, w: nat, wide: nat)
    requires w < wide <= 398 - LeftEdge(style.depth) && Placed(style.align, x, LeftEdge(style.depth), w)
    ensures x + wide > 398 ==> x > LeftEdge(style.depth)
  {
  }

  lemma WordOnly(g: Page, s: Layout, t: seq<bv8>, invert: bool)
    requires Chunked(t, 0) && OneWord(t) && ChunkCount(t, 0, |t|) * Pace(s) <= 398 - Indent(s)
    ensures Tokens(g, s, t, 0, invert)
         == Word(g, if s.pen.x + ChunkCount(t, 0, |t|) * Pace(s) > 398 && s.pen.x > Indent(s) then Newline(g, s) else s, t, 0, |t|, invert)
  {
    hide Pace, Word, LongWord, Newline, ChunkCount, Indent;
    TokenBounds(t, 0);
    assert SkipBlankish(t, 0) == 0;
    WordFits(s, t, 0, |t|);
    assert LeadWidth(s, 0, 0) == 0;
    var b := Token(g, s, t, 0, 0, |t|, invert);
    assert Tokens(g, b, t, |t|, invert) == b;
  }

  lemma {:induction false} UnseenWord(g: Page, s: Layout, t: seq<bv8>, k: nat, e: nat, invert: bool)
    requires e <= |t| && !Seen(g.view, s.pen.y)
    ensures Word(g, s, t, k, e, invert).log == s.log
    decreases e - k
  {
    hide Pace, FaceOf, RowHeight, Seen;
    if k < e {
      UnseenWord(g, Moved(CellOf(g, s, ChunkAt(t, k), invert), Pace(s)), t, k + SeqLen(t[k]), e, invert);
    }
  }

  lemma RowsApart(g: Page, y: nat, h: nat)
    requires 0 < h < 0x1_0000
    ensures ScreenY(g.view, y + h) != ScreenY(g.view, y)
  {
  }

  // Moved down, the word's first character is on another row or not drawn at all.
  lemma MovedWordMisses(g: Page, s: Layout, s1: Layout, t: seq<bv8>, invert: bool, align: Align, left: nat, w: nat)
    requires t != [] && !Blankish(t[0]) && s1.log == s.log && s1.pen.y == s.pen.y && 0 < RowHeight(g, s1) < 0x1_0000
    ensures !Lands(g, s, Word(g, Newline(g, s1), t, 0, |t|, invert), align, left, w)
  {
    hide Glyphs, Seen, ScreenY, Word, ChunkAt, Placed, RowHeight;
    var n := Newline(g, s1);
    FirstIsNoBlank(t);
    if Seen(g.view, n.pen.y) {
      WordStarts(g, n, t, |t|, invert);
      RowsApart(g, s1.pen.y, RowHeight(g, s1));
    } else {
      UnseenWord(g, n, t, 0, |t|, invert);
    }
  }

  lemma WordAtPenLands(g: Page, s: Layout, s1: Layout, t: seq<bv8>, invert: bool, align: Align, left: nat, w: nat)
    requires t != [] && !Blankish(t[0]) && s1.log == s.log && s1.pen.y == s.pen.y && Seen(g.view, s.pen.y)
    ensures Lands(g, s, Word(g, s1, t, 0, |t|, invert), align, left, w) <==> Placed(align, s1.pen.x, left, w)
  {
    hide Glyphs, Seen, ScreenY, Word, ChunkAt, Placed;
    FirstIsNoBlank(t);
    WordStarts(g, s1, t, |t|, invert);
  }

  lemma Misplaced(style: Style, x: int, n: nat, wide: nat)
    requires 6 * n < wide && Placed(style.align, x, LeftEdge(style.depth), 6 * n)
    ensures Placed(style.align, x, LeftEdge(style.depth), wide) <==> style.align == Left
    ensures style.align == Left && wide <= 398 - LeftEdge(style.depth) ==> x + wide <= 398
  {
  }

  lemma WideFaces(depth: nat, n: nat)
    requires n > 0
    ensures 6 * n < n * FaceWidth(LadderFace(depth))
  {
  }

  lemma HeadingRow(g: Page, s: Layout, t: seq<bv8>, style: Style)
    requires !s.pen.rowOpen && TakesHead(g, false, t, style) && g.cfg.leading <= 0xFF
    ensures 0 < RowHeight(g, Styled(g, s, t, style)) < 0x1_0000
  {
    hide Luma, HasBg, AllIn, Cells, TakesHead;
  }

  /** A heading is measured in the body face and drawn in its own: when its one word fits a row, it stands where its
      alignment promises exactly when that is the left edge. Right-aligned it is moved down to the next row's left edge,
      centred it hangs to the right. */
  lemma HeadingLandsIff(g: Page, s: Layout, t: seq<bv8>, style: Style)
    requires Chunked(t, 0) && OneWord(t) && !style.literal && g.cfg.leading <= 0xFF
    requires s.pen.head == 0 && !s.pen.rowOpen && TakesHead(g, false, t, style) && Seen(g.view, s.pen.y)
    requires Cells(t) * FaceWidth(LadderFace(style.depth)) <= 398 - LeftEdge(style.depth)
    ensures Lands(g, s, OnText(g, s, t, style), style.align, LeftEdge(style.depth), Cells(t) * FaceWidth(LadderFace(style.depth)))
       <==> style.align == Left
  {
    hide Seen, TakesHead, Cells, Styled, Word, LeftEdge, DarkBg, LadderFace, Newline, FaceWidth, OnText, Lands, Placed, OneWord, Pace, Indent, RowHeight;
    OneWordFirst(t);
    WideFaces(style.depth, Cells(t));
    var s1, wide := Styled(g, s, t, style), Cells(t) * FaceWidth(LadderFace(style.depth));
    StyledHeading(g, s, t, style);
    HeadingRow(g, s, t, style);
    HeadingWord(g, s, t, style);
    Misplaced(style, s1.pen.x, Cells(t), wide);
    if s1.pen.x + wide > 398 {
      MovedWordMisses(g, s, s1, t, s1.pen.invert, style.align, LeftEdge(style.depth), wide);
    } else {
      WordAtPenLands(g, s, s1, t, s1.pen.invert, style.align, LeftEdge(style.depth), wide);
    }
  }

  lemma OneWordFirst(t: seq<bv8>)
    requires OneWord(t)
    ensures t != [] && !Blankish(t[0]) && Cells(t) > 0
  {
  }

  /** Right-aligned: the whole word stands at the left edge of the row below. */
  lemma RightHeadingStandsLeft(g: Page, s: Layout, t: seq<bv8>, style: Style)
    requires Chunked(t, 0) && OneWord(t) && !style.literal && style.align == Right
    requires s.pen.head == 0 && !s.pen.rowOpen && TakesHead(g, false, t, style)
    requires Cells(t) * FaceWidth(LadderFace(style.depth)) <= 398 - LeftEdge(style.depth)
    requires Seen(g.view, s.pen.y + FaceHeight(LadderFace(style.depth)) + g.cfg.leading)
    ensures var row := ScreenY(g.view, s.pen.y + FaceHeight(LadderFace(style.depth)) + g.cfg.leading);
      Glyphs(OnText(g, s, t, style).log)
      == Glyphs(s.log) + Typed(t, 0, |t|, row, LeftEdge(style.depth), FaceWidth(LadderFace(style.depth)), !DarkBg(style))
  {
    hide Glyphs, Typed, ScreenY, Seen, TakesHead, Cells, Styled, Word, LeftEdge, DarkBg, LadderFace, FaceWidth, OnText, OneWord, Pace, Indent, ChunkCount, FaceHeight, RowHeight;
    OneWordFirst(t);
    CellsAreChunks(t);
    WideFaces(style.depth, Cells(t));
    var s1 := Styled(g, s, t, style);
    StyledHeading(g, s, t, style);
    HeadingHeight(g, s, t, style);
    HeadingWord(g, s, t, style);
    var n := Newline(g, s1);
    SamePace(s1, n);
    WordTypes(g, n, t, 0, |t|, s1.pen.invert);
  }

  lemma HeadingHeight(g: Page, s: Layout, t: seq<bv8>, style: Style)
    requires !s.pen.rowOpen && TakesHead(g, false, t, style)
    ensures RowHeight(g, Styled(g, s, t, style)) == FaceHeight(LadderFace(style.depth)) + g.cfg.leading
  {
    hide Luma, HasBg, AllIn, Cells, TakesHead;
  }
  // ---- Words that do not fit ------------------------------------------

  /** A token that does not fit what is left of its row, its word fitting a whole one: the spaces vanish and the word is
      typed from the left edge of the row below. */
  lemma TokenWraps(g: Page, s: Layout, t: seq<bv8>, i: nat, sp: nat, e: nat, invert: bool)
    requires i <= sp <= e <= |t| && forall j :: i <= j < sp ==> Blankish(t[j])
    requires Indent(s) < s.pen.x && s.pen.x + ChunkCount(t, i, e) * Pace(s) > 398 && ChunkCount(t, i, e) * Pace(s) <= 0xFFFF
    requires ChunkCount(t, sp, e) * Pace(s) <= 398 - Indent(s) && Seen(g.view, s.pen.y + RowHeight(g, s))
    ensures var b := Token(g, s, t, i, sp, e, invert);
      && Glyphs(b.log) == Glyphs(s.log) + Typed(t, sp, e, ScreenY(g.view, s.pen.y + RowHeight(g, s)), Indent(s), Pace(s), !invert)
      && b.pen.y == s.pen.y + RowHeight(g, s) && b.pen.x == Indent(s) + ChunkCount(t, sp, e) * Pace(s)
  {
    hide Glyphs, Typed, Seen, ScreenY, Pace, Indent, RowHeight, Word, LongWord, Lead, ChunkCount;
    TokenMoves(g, s, t, i, sp, e, invert);
    hide Token;
    var n := Newline(g, s);
    SamePace(s, n);
    WordTypes(g, n, t, sp, e, invert);
    WordWalks(g, n, t, sp, e, invert);
  }

  lemma TokenMoves(g: Page, s: Layout, t: seq<bv8>, i: nat, sp: nat, e: nat, invert: bool)
    requires i <= sp <= e <= |t| && forall j :: i <= j < sp ==> Blankish(t[j])
    requires Indent(s) < s.pen.x && s.pen.x + ChunkCount(t, i, e) * Pace(s) > 398 && ChunkCount(t, i, e) * Pace(s) <= 0xFFFF
    requires ChunkCount(t, sp, e) * Pace(s) <= 398 - Indent(s)
    ensures Token(g, s, t, i, sp, e, invert) == Word(g, Newline(g, s), t, sp, e, invert)
  {
    hide Pace, Indent, RowHeight, Word, LongWord, Lead, ChunkCount, Newline;
    BlanksCount(t, i, sp, e);
    Distributes(sp - i, ChunkCount(t, sp, e), Pace(s));
    WordFits(s, t, sp, e);
  }

  /** A grid of rows of height h, m cells of width p in each, its first cell at (left, y). */
  datatype Raster = Raster(m: nat, y: nat, h: nat, left: nat, p: nat)

  function RowAt(r: Raster, j: nat): nat
    requires r.m > 0
  {
    r.y + (j / r.m) * r.h
  }

  function ColumnAt(r: Raster, j: nat): nat
    requires r.m > 0
  {
    r.left + (j % r.m) * r.p
  }

  /** A word typed cell by cell: its codepoint number j in row j / m, at column j % m. */
  function Grid(t: seq<bv8>, k: nat, e: nat, j: nat, r: Raster, black: bool): seq<Mark>
    requires e <= |t| && r.m > 0
    decreases e - k
  {
    if k < e then TypedOne(t, k, RowAt(r, j), ColumnAt(r, j), black) + Grid(t, k + SeqLen(t[k]), e, j + 1, r, black) else []
  }

  /** The pen before codepoint j: at its cell, or at the end of a full row. */
  predicate AtCell(s: Layout, j: nat, r: Raster)
    requires r.m > 0
  {
    (s.pen.y == RowAt(r, j) && s.pen.x == ColumnAt(r, j))
    || (j > 0 && j % r.m == 0 && s.pen.y + r.h == RowAt(r, j) && s.pen.x == r.left + r.m * r.p)
  }

  lemma Remainder(j: nat, m: nat)
    requires m > 0
    ensures j == (j / m) * m + j % m && 0 <= j % m < m
  {
  }

  lemma NextCell(j: nat, m: nat)
    requires m > 0
    ensures if j % m + 1 < m then (j + 1) / m == j / m && (j + 1) % m == j % m + 1 else (j + 1) / m == j / m + 1 && (j + 1) % m == 0
  {
    var q := j / m;
    Remainder(j, m);
    Distributes(q, 1, m);
    Quotient(j + 1, m, if j % m + 1 < m then q else q + 1);
    Remainder(j + 1, m);
  }

  /** The raster is the one the pen's row, face and margins make. */
  predicate Rastered(g: Page, s: Layout, r: Raster) {
    r.m > 0 && r.left == Indent(s) && r.p == Pace(s) && r.h == RowHeight(g, s) && r.m * r.p <= 398 - r.left < r.m * r.p + r.p
  }

  lemma RasteredSame(g: Page, a: Layout, b: Layout, r: Raster)
    requires Rastered(g, a, r)
    requires b.pen.head == a.pen.head && b.pen.bold == a.pen.bold && b.pen.depth == a.pen.depth && b.pen.rowH == a.pen.rowH
    ensures Rastered(g, b, r)
  {
    SamePace(a, b);
  }

  // The row a cell is on begins where the pen goes, if it has to move.
  lemma CellReached(g: Page, s: Layout, j: nat, r: Raster)
    requires Rastered(g, s, r) && AtCell(s, j, r)
    ensures var b := WrapIfNeeded(g, s, r.p);
      b.pen.y == RowAt(r, j) && b.pen.x == ColumnAt(r, j) && b.pen.x + r.p <= 398 && b.log == s.log && Rastered(g, b, r)
  {
    hide Pace, Indent;
    var b := WrapIfNeeded(g, s, r.p);
    WrapPen(g, s, r.p);
    RasteredSame(g, s, b, r);
    Remainder(j, r.m);
    Grows(j % r.m + 1, r.m, r.p);
    Distributes(j % r.m, 1, r.p);
    Grows(1, r.m, r.p);
  }

  lemma CellLeft(a: Layout, b: Layout, j: nat, r: Raster)
    requires r.m > 0 && a.pen.y == RowAt(r, j) && a.pen.x == ColumnAt(r, j)
    requires b.pen.y == a.pen.y && b.pen.x == a.pen.x + r.p
    ensures AtCell(b, j + 1, r)
  {
    NextCell(j, r.m);
    Remainder(j, r.m);
    Distributes(j % r.m, 1, r.p);
    Distributes(j / r.m, 1, r.h);
  }

  lemma GlyphTypes(g: Page, s: Layout, t: seq<bv8>, k: nat, invert: bool)
    requires k < |t| && !BlankChunk(ChunkAt(t, k)) && Seen(g.view, s.pen.y)
    ensures Glyphs(PutGlyph(g, s, ChunkAt(t, k), invert).log)
         == Glyphs(s.log) + TypedOne(t, k, ScreenY(g.view, s.pen.y), s.pen.x, !invert)
  {
    hide Glyphs, ChunkAt, BlankChunk, FaceOf, Seen, ScreenY, Put;
    PutTypes(g, s, true, Glyph(FaceOf(g, s, ChunkAt(t, k)), s.pen.x, ChunkAt(t, k), !invert));
  }

  // One character of a word too long for a row.
  lemma LongCell(g: Page, s: Layout, t: seq<bv8>, k: nat, j: nat, r: Raster, invert: bool) returns (m: Layout)
    requires g.view == All && k < |t| && !BlankChunk(ChunkAt(t, k)) && Rastered(g, s, r) && AtCell(s, j, r)
    ensures m == Moved(PutGlyph(g, WrapIfNeeded(g, s, Pace(s)), ChunkAt(t, k), invert), Pace(WrapIfNeeded(g, s, Pace(s))))
    ensures Rastered(g, m, r) && AtCell(m, j + 1, r)
    ensures Glyphs(m.log) == Glyphs(s.log) + TypedOne(t, k, RowAt(r, j), ColumnAt(r, j), !invert)
  {
    hide Glyphs, Pace, Indent, AtCell, WrapIfNeeded, PutGlyph, ChunkAt, TypedOne, BlankChunk, RowHeight, RowAt, ColumnAt;
    var s1 := WrapIfNeeded(g, s, r.p);
    CellReached(g, s, j, r);
    GlyphTypes(g, s1, t, k, invert);
    CellStays(g, s1, ChunkAt(t, k), invert);
    m := Moved(PutGlyph(g, s1, ChunkAt(t, k), invert), r.p);
    RasteredSame(g, s1, m, r);
    CellLeft(s1, m, j, r);
  }

  lemma {:induction false} LongTypes(g: Page, s: Layout, t: seq<bv8>, k: nat, e: nat, j: nat, r: Raster, invert: bool)
    requires g.view == All && e <= |t| && NoBlanks(t, k, e) && r.m > 0 && Rastered(g, s, r) && AtCell(s, j, r)
    ensures Glyphs(LongWord(g, s, t, k, e, invert).log) == Glyphs(s.log) + Grid(t, k, e, j, r, !invert)
    decreases e - k
  {
    hide Glyphs, Pace, Rastered, AtCell, WrapIfNeeded, PutGlyph, ChunkAt, TypedOne, BlankChunk, RowAt, ColumnAt, Moved;
    if k < e {
      var m := LongCell(g, s, t, k, j, r, invert);
      LongTypes(g, m, t, k + SeqLen(t[k]), e, j + 1, r, invert);
      Regrouped(Glyphs(s.log), TypedOne(t, k, RowAt(r, j), ColumnAt(r, j), !invert), Grid(t, k + SeqLen(t[k]), e, j + 1, r, !invert));
    } else {
      assert Glyphs(s.log) + [] == Glyphs(s.log);
    }
  }

  /** A word longer than any row, met at the left edge, fills row after row: as many cells in each as fit. */
  lemma LongWordGrid(cfg: Config, s: Layout, t: seq<bv8>, e: nat, invert: bool)
    requires e <= |t| && NoBlanks(t, 0, e) && s.pen.x == Indent(s)
    ensures (398 - Indent(s)) / Pace(s) > 0
    ensures var r := Raster((398 - Indent(s)) / Pace(s), s.pen.y, RowHeight(Whole(cfg), s), Indent(s), Pace(s));
      Glyphs(LongWord(Whole(cfg), s, t, 0, e, invert).log) == Glyphs(s.log) + Grid(t, 0, e, 0, r, !invert)
  {
    hide Glyphs, Grid, LongWord, NoBlanks;
    PaceBounds(s);
    hide Pace, Indent;
    var r := Raster((398 - Indent(s)) / Pace(s), s.pen.y, RowHeight(Whole(cfg), s), Indent(s), Pace(s));
    QuotientBounds(398 - Indent(s), Pace(s));
    Remainder(0, r.m);
    assert 0 / r.m == 0;
    LongTypes(Whole(cfg), s, t, 0, e, 0, r, invert);
  }

  lemma PaceBounds(s: Layout)
    ensures 6 <= Pace(s) <= 12 && 2 <= Indent(s) <= 50 && (398 - Indent(s)) / Pace(s) > 0
  {
  }
}
