// Every rectangle and rule the renderer asks for can be drawn: its sixteen-bit loops end.
module LayoutRects {
  import opened Geometry
  import opened Utf8
  import opened Chunks
  import opened CellWalk
  import opened TableFit
  import opened LayoutTypes
  import opened LayoutSpec
  import opened LayoutWalk
  import opened LayoutTables
  import opened LayoutColumns
  import opened Arith

  const MAX_RUN := 5000
  const MAX_ROW := 300

  /** Drawn on any row of the panel, the call's counters stop before they wrap. */
  predicate Ends(shape: Shape) {
    match shape
    case Fill(x, w, h, _) => 0 <= x && 0 <= w && 0 <= h <= MAX_ROW && x + w <= 0xFFFF
    case Texture(x, w, h, _) => 0 <= x && 0 <= w && 0 <= h <= MAX_ROW
    case Rule(x, dy, w, _) => 0 <= x && 0 <= w && x + w <= 0xFFFF && -1 <= dy <= MAX_ROW
    case Glyph(_, x, _, _) => 0 <= x <= 0xFFFF
    case Symbol(x, _, _) => 0 <= x <= 0xFFFF
    case Link(_, _, _, _, _) => true
  }

  ghost predicate AllEnd(log: seq<Draw>) {
    forall i :: 0 <= i < |log| ==> Ends(log[i].shape)
  }

  predicate Small(g: Page, s: Layout) {
    s.pen.rowH <= MAX_ROW && g.cfg.leading <= 255
  }

  /** Nothing that does not end was added. */
  ghost predicate Kept(g: Page, a: Layout, b: Layout) {
    Small(g, b) && (AllEnd(b.log) <==> AllEnd(a.log))
  }

  // ---- Primitives -----------------------------------------------------

  /** A draw that does not end is harmless only where nothing is drawn. */
  lemma PutEndsIff(g: Page, s: Layout, shape: Shape)
    ensures AllEnd(Put(g, s, shape).log) <==> AllEnd(s.log) && (Seen(g.view, s.pen.y) ==> Ends(shape))
  {
    hide Ends;
    if Seen(g.view, s.pen.y) {
      var b := Put(g, s, shape).log;
      assert b[|s.log|].shape == shape;
      assert AllEnd(b) ==> forall i :: 0 <= i < |s.log| ==> s.log[i] == b[i];
    }
  }

  lemma PutEnds(g: Page, s: Layout, when: bool, shape: Shape)
    requires Small(g, s) && (when ==> Ends(shape))
    ensures Kept(g, s, PutIf(g, s, when, shape)) && PutIf(g, s, when, shape).pen == s.pen
    ensures when ==> Kept(g, s, Put(g, s, shape)) && Put(g, s, shape).pen == s.pen
  {
    hide AllEnd, Ends;
    if when {
      PutEndsIff(g, s, shape);
    }
  }

  lemma AnywayEnds(g: Page, s: Layout, shape: Shape)
    requires Small(g, s) && Ends(shape)
    ensures Kept(g, s, PutAnyway(g, s, shape)) && PutAnyway(g, s, shape).pen == s.pen
  {
    hide Ends;
    var b := PutAnyway(g, s, shape).log;
    assert AllEnd(b) ==> forall i :: 0 <= i < |s.log| ==> s.log[i] == b[i];
  }

  lemma RowFits(g: Page, s: Layout)
    requires Small(g, s)
    ensures 1 <= RowHeight(g, s) <= MAX_ROW
  {
  }

  lemma PenEnds(g: Page, a: Layout, b: Layout)
    requires Small(g, a) && b.log == a.log && b.pen.rowH <= MAX_ROW
    ensures Kept(g, a, b)
  {
  }

  lemma PaintEnds(g: Page, s: Layout, x: int, w: int, luma: nat)
    requires Small(g, s) && 0 <= x && 0 <= w && x + w <= 0xFFFF
    ensures Kept(g, s, PaintBg(g, s, x, w, luma)) && PaintBg(g, s, x, w, luma).pen == s.pen
  {
    hide AllEnd, Put;
    RowFits(g, s);
    PutEnds(g, s, true, Texture(x, w, RowHeight(g, s), luma));
    PutEnds(g, s, luma < 128, Fill(x, w, RowHeight(g, s), true));
  }

  // A texture stops at the panel's edges by itself.
  lemma TextureEnds(g: Page, s: Layout, x: int, w: int, luma: nat)
    requires Small(g, s) && 0 <= x && 0 <= w && luma >= 128
    ensures Kept(g, s, PaintBg(g, s, x, w, luma)) && PaintBg(g, s, x, w, luma).pen == s.pen
  {
    hide AllEnd, Put;
    RowFits(g, s);
    PutEnds(g, s, true, Texture(x, w, RowHeight(g, s), luma));
  }

  lemma GlyphEnds(g: Page, s: Layout, bytes: seq<bv8>, invert: bool)
    requires Small(g, s)
    ensures Kept(g, s, PutGlyph(g, s, bytes, invert)) && PutGlyph(g, s, bytes, invert).pen == s.pen
  {
    hide AllEnd, Put;
    PutEnds(g, s, true, Glyph(FaceOf(g, s, bytes), s.pen.x, bytes, !invert));
  }

  // ---- Runs -----------------------------------------------------------

  lemma CellEnds(g: Page, s: Layout, bytes: seq<bv8>, invert: bool)
    requires Small(g, s) && s.pen.x + 12 <= 0xFFFF
    ensures Kept(g, s, CellOf(g, s, bytes, invert)) && CellOf(g, s, bytes, invert).pen == s.pen
  {
    hide AllEnd, Put, PutIf, PaintBg, PutGlyph;
    var blank := |bytes| == 1 && Blankish(bytes[0]);
    RowFits(g, s);
    assert 0 <= Pace(s) <= 12;
    PaintEnds(g, s, s.pen.x, Pace(s), s.pen.bgLuma);
    PutEnds(g, s, true, Fill(s.pen.x, Pace(s), RowHeight(g, s), invert));
    PutEnds(g, s, invert, Fill(s.pen.x, Pace(s), RowHeight(g, s), true));
    var s1 := if s.pen.hasBg then (if blank then PaintBg(g, s, s.pen.x, Pace(s), s.pen.bgLuma) else Put(g, s, Fill(s.pen.x, Pace(s), RowHeight(g, s), invert))) else PutIf(g, s, invert, Fill(s.pen.x, Pace(s), RowHeight(g, s), true));
    GlyphEnds(g, s1, bytes, invert);
    var s2 := if blank then s1 else PutGlyph(g, s1, bytes, invert);
    PutEnds(g, s2, s.pen.underline, Rule(s.pen.x, RowHeight(g, s) - 2, Pace(s), !invert));
  }

  lemma MovedEnds(g: Page, s: Layout, w: nat)
    requires Small(g, s)
    ensures Kept(g, s, Moved(s, w)) && Pace(Moved(s, w)) == Pace(s)
    ensures s.pen.x + w <= 0xFFFF ==> Moved(s, w).pen.x == s.pen.x + w
  {
  }

  lemma {:induction false} WordEnds(g: Page, s: Layout, t: seq<bv8>, k: nat, e: nat, invert: bool)
    requires Small(g, s) && e <= |t| && s.pen.x + ChunkCount(t, k, e) * Pace(s) + 12 <= 0xFFFF
    ensures Kept(g, s, Word(g, s, t, k, e, invert))
    decreases e - k
  {
    hide AllEnd, CellOf, Moved, Pace;
    if k < e {
      var bytes := ChunkAt(t, k);
      CountTimes(t, k, e, Pace(s));
      CellEnds(g, s, bytes, invert);
      var s1 := CellOf(g, s, bytes, invert);
      SamePace(s, s1);
      MovedEnds(g, s1, Pace(s));
      WordEnds(g, Moved(s1, Pace(s)), t, k + SeqLen(t[k]), e, invert);
    }
  }

  lemma {:induction false} LongWordEnds(g: Page, s: Layout, t: seq<bv8>, k: nat, e: nat, invert: bool)
    requires Small(g, s) && e <= |t|
    ensures Kept(g, s, LongWord(g, s, t, k, e, invert))
    decreases e - k
  {
    hide AllEnd, PutGlyph, WrapIfNeeded, Moved, Pace;
    if k < e {
        var s1 := WrapIfNeeded(g, s, Pace(s));
      WrapEnds(g, s, Pace(s));
      GlyphEnds(g, s1, ChunkAt(t, k), invert);
      var s2 := PutGlyph(g, s1, ChunkAt(t, k), invert);
      MovedEnds(g, s2, Pace(s1));
      LongWordEnds(g, Moved(s2, Pace(s1)), t, k + SeqLen(t[k]), e, invert);
    }
  }

  lemma WrapEnds(g: Page, s: Layout, w: nat)
    requires Small(g, s)
    ensures Kept(g, s, WrapIfNeeded(g, s, w)) && Kept(g, s, Newline(g, s))
  {
  }

  lemma LeadEnds(g: Page, s: Layout, leadW: nat, invert: bool)
    requires Small(g, s) && s.pen.x + leadW <= 0xFFFF
    ensures Kept(g, s, Lead(g, s, leadW, invert))
    ensures Lead(g, s, leadW, invert).pen == s.pen.(x := s.pen.x + leadW, rowOpen := true)
  {
    hide AllEnd, Put, PutIf, PaintBg;
    RowFits(g, s);
    PaintEnds(g, s, s.pen.x, leadW, s.pen.bgLuma);
    var s1 := if s.pen.hasBg then PaintBg(g, s, s.pen.x, leadW, s.pen.bgLuma) else s;
    PutEnds(g, s1, s.pen.underline, Rule(s.pen.x, RowHeight(g, s) - 2, leadW, !invert));
    MovedEnds(g, PutIf(g, s1, s.pen.underline, Rule(s.pen.x, RowHeight(g, s) - 2, leadW, !invert)), leadW);
  }

  lemma {:induction false} FewChunks(t: seq<bv8>, k: nat, e: nat)
    requires e <= |t|
    ensures ChunkCount(t, k, e) <= if k <= e then e - k else 0
    decreases e - k
  {
    if k < e {
      FewChunks(t, k + SeqLen(t[k]), e);
    }
  }

  lemma WidthsUnwrapped(s: Layout, t: seq<bv8>, i: nat, sp: nat, e: nat)
    requires i <= sp <= e <= |t| <= MAX_RUN
    ensures LeadWidth(s, i, sp) == (sp - i) * Pace(s) <= 60000
    ensures WordWidth(s, t, sp, e) == ChunkCount(t, sp, e) * Pace(s)
  {
    FewChunks(t, sp, e);
    var n, p := ChunkCount(t, sp, e), Pace(s);
    assert p in {6, 7, 8, 12};
    hide Pace, ChunkCount, Indent;
    assert n * 6 <= 60000 && n * 7 <= 60000 && n * 8 <= 60000 && n * 12 <= 60000;
    var m := sp - i;
    assert m * 6 <= 60000 && m * 7 <= 60000 && m * 8 <= 60000 && m * 12 <= 60000;
  }

  lemma TokenEnds(g: Page, s: Layout, t: seq<bv8>, i: nat, sp: nat, e: nat, invert: bool)
    requires Small(g, s) && i <= sp <= e <= |t| <= MAX_RUN
    ensures Kept(g, s, Token(g, s, t, i, sp, e, invert))
  {
    hide AllEnd, Kept, Word, LongWord, Lead, LeadWidth, WordWidth, Pace, Newline, ChunkCount, Indent;
    var leadW, wordW := LeadWidth(s, i, sp), WordWidth(s, t, sp, e);
    WidthsUnwrapped(s, t, i, sp, e);
    if wordW > Usable(s) {
      LongWordEnds(g, s, t, i, e, invert);
    } else if s.pen.x + leadW + wordW > RIGHT && s.pen.x > Indent(s) {
      NewlineEnds(g, s);
      WordAfter(g, s, Newline(g, s), t, sp, e, invert);
    } else {
      InPlaceEnds(g, s, t, leadW, sp, e, invert);
    }
  }

  lemma InPlaceEnds(g: Page, s: Layout, t: seq<bv8>, leadW: nat, sp: nat, e: nat, invert: bool)
    requires Small(g, s) && sp <= e <= |t| <= MAX_RUN && leadW <= 60000 && WordWidth(s, t, sp, e) <= Usable(s)
    requires s.pen.x + leadW + WordWidth(s, t, sp, e) <= RIGHT || s.pen.x <= Indent(s)
    ensures Kept(g, s, Word(g, if leadW != 0 then Lead(g, s, leadW, invert) else s, t, sp, e, invert))
  {
    assert Indent(s) <= 50;
    hide AllEnd, Word, Lead, WordWidth, Pace, ChunkCount, Indent;
    if leadW != 0 {
      LeadEnds(g, s, leadW, invert);
      WordAfter(g, s, Lead(g, s, leadW, invert), t, sp, e, invert);
    } else {
      WordAfter(g, s, s, t, sp, e, invert);
    }
  }

  lemma NewlineEnds(g: Page, s: Layout)
    requires Small(g, s)
    ensures Kept(g, s, Newline(g, s)) && Newline(g, s).pen.x == Indent(s)
    ensures Newline(g, s).pen.head == s.pen.head && Newline(g, s).pen.bold == s.pen.bold
  {
  }

  lemma WordAfter(g: Page, s: Layout, s1: Layout, t: seq<bv8>, sp: nat, e: nat, invert: bool)
    requires Small(g, s1) && sp <= e <= |t| <= MAX_RUN
    requires s1.pen.head == s.pen.head && s1.pen.bold == s.pen.bold
    requires s1.pen.x + WordWidth(s, t, sp, e) + 12 <= 0xFFFF && Kept(g, s, s1)
    ensures Kept(g, s, Word(g, s1, t, sp, e, invert))
  {
    assert Pace(s1) == Pace(s);
    hide AllEnd, Word, Pace;
    WidthsUnwrapped(s, t, sp, sp, e);
    WordEnds(g, s1, t, sp, e, invert);
  }

  lemma {:induction false} TokensEnd(g: Page, s: Layout, t: seq<bv8>, i: nat, invert: bool)
    requires Small(g, s) && Chunked(t, i) && |t| <= MAX_RUN
    ensures Kept(g, s, Tokens(g, s, t, i, invert))
    decreases |t| - i
  {
    hide AllEnd, Token;
    if i < |t| {
      TokenBounds(t, i);
      var sp := SkipBlankish(t, i);
      var e := WordEnd(t, sp);
      TokenEnds(g, s, t, i, sp, e, invert);
      TokensEnd(g, Token(g, s, t, i, sp, e, invert), t, e, invert);
    }
  }

  lemma LiteralCellEnds(g: Page, s: Layout, bytes: seq<bv8>, invert: bool)
    requires Small(g, s) && s.pen.x + FONT_ADVANCE <= RIGHT
    ensures Kept(g, s, LiteralCellOf(g, s, bytes, invert))
  {
    hide AllEnd, Put, PutIf;
    RowFits(g, s);
    var fill := Fill(s.pen.x, FONT_ADVANCE, RowHeight(g, s), true);
    PutEnds(g, s, invert, fill);
    var s1 := PutIf(g, s, invert, fill);
    var glyph := Glyph(Body, s.pen.x, bytes, !invert);
    PutEnds(g, s1, true, glyph);
    MovedEnds(g, Put(g, s1, glyph), FONT_ADVANCE);
  }

  lemma ClipEnds(g: Page, s: Layout, invert: bool)
    requires Small(g, s)
    ensures Kept(g, s, Clipped(g, s, invert))
  {
    hide AllEnd, Put;
    RowFits(g, s);
    var fill := Fill(RIGHT - FONT_ADVANCE, FONT_ADVANCE, RowHeight(g, s), invert);
    PutEnds(g, s, true, fill);
    var mark := Symbol(RIGHT - FONT_ADVANCE, [0xC2, 0xBB], !invert);
    PutEnds(g, Put(g, s, fill), true, mark);
    PenEnds(g, Put(g, Put(g, s, fill), mark), Opened(Put(g, Put(g, s, fill), mark)));
  }

  lemma {:induction false} LiteralEnds(g: Page, s: Layout, t: seq<bv8>, k: nat, invert: bool)
    requires Small(g, s)
    ensures Kept(g, s, LiteralFrom(g, s, t, k, invert))
    decreases |t| - k
  {
    hide AllEnd, Clipped, LiteralCellOf;
    if k < |t| {
      if s.pen.x + FONT_ADVANCE > RIGHT {
        ClipEnds(g, s, invert);
      } else {
        LiteralCellEnds(g, s, ChunkAt(t, k), invert);
        LiteralEnds(g, LiteralCellOf(g, s, ChunkAt(t, k), invert), t, k + SeqLen(t[k]), invert);
      }
    }
  }

  /** A run of up to five thousand bytes ends wherever the pen stands. */
  lemma RunEnds(g: Page, s: Layout, t: seq<bv8>, invert: bool)
    requires Small(g, s) && Chunked(t, 0) && |t| <= MAX_RUN
    ensures Kept(g, s, EmitRun(g, s, t, invert))
  {
    hide AllEnd, LiteralFrom, Tokens;
    PenEnds(g, s, ToMargin(s));
    PenEnds(g, s, PullBack(s));
    if s.pen.literal {
      LiteralEnds(g, ToMargin(s), t, 0, invert);
    } else {
      TokensEnd(g, PullBack(s), t, 0, invert);
    }
  }

  // ---- Callbacks ------------------------------------------------------

  lemma StyledEnds(g: Page, s: Layout, t: seq<bv8>, style: Style)
    requires Small(g, s)
    ensures Kept(g, s, Styled(g, s, t, style))
  {
    StyledSmall(g, s, t, style);
    hide AllEnd, Styled;
    PenEnds(g, s, Styled(g, s, t, style));
  }

  lemma StyledSmall(g: Page, s: Layout, t: seq<bv8>, style: Style)
    requires Small(g, s)
    ensures Styled(g, s, t, style).log == s.log && Styled(g, s, t, style).pen.rowH <= MAX_ROW
  {
    hide Aligned, Headed, Luma, HasBg;
    var s1 := ToMargin(s.(pen := s.pen.(depth := style.depth, blankPending := false, literal := style.literal)));
    var s2 := Aligned(s1, t, style.align);
    AlignedSmall(s1, t, style.align);
    HeadedSmall(g, s2.(pen := s2.pen.(hasBg := HasBg(style.bg), bgLuma := Luma(style.bg))), t, style);
  }

  lemma AlignedSmall(s: Layout, t: seq<bv8>, align: Align)
    ensures Aligned(s, t, align).log == s.log && Aligned(s, t, align).pen.rowH == s.pen.rowH
  {
    hide AlignedX;
  }

  lemma HeadedSmall(g: Page, s: Layout, t: seq<bv8>, style: Style)
    requires s.pen.rowH <= MAX_ROW && g.cfg.leading <= 255
    ensures Headed(g, s, t, style).log == s.log && Headed(g, s, t, style).pen.rowH <= MAX_ROW
  {
    hide TakesHead, HeadWanted;
  }

  lemma OnLinkEnds(g: Page, s: Layout, caption: seq<bv8>, target: seq<bv8>, style: Style)
    requires Small(g, s) && Chunked(caption, 0) && |caption| <= MAX_RUN
    ensures Kept(g, s, OnLink(g, s, caption, target, style))
  {
    hide AllEnd, EmitRun, Put;
    var s1 := ToMargin(Deepened(s, style.depth));
    PenEnds(g, s, s1);
    RunEnds(g, s1, caption, s1.pen.invert);
    var s2 := EmitRun(g, s1, caption, s1.pen.invert);
    PutEnds(g, s2, true, Shape.Link(s1.pen.x, ScreenY(g.view, s1.pen.y), if s2.pen.x > s1.pen.x then s2.pen.x - s1.pen.x else 0, RowHeight(g, s2), target));
  }

  lemma {:induction false} DividerEnds(g: Page, s: Layout, x: nat, bytes: seq<bv8>)
    requires Small(g, s)
    ensures Kept(g, s, DividerFrom(g, s, x, bytes)) && DividerFrom(g, s, x, bytes).pen == s.pen
    decreases RIGHT - x
  {
    hide AllEnd, Put;
    if x + FONT_ADVANCE <= RIGHT {
      PutEnds(g, s, true, Symbol(x, bytes, true));
      DividerEnds(g, Put(g, s, Symbol(x, bytes, true)), x + FONT_ADVANCE, bytes);
    }
  }

  /** A dark field's bar is filled, so it must not start beyond the right margin. */
  predicate BarOk(g: Page, s: Layout, f: Field, style: Style) {
    Seen(g.view, s.pen.y) && f.kind == TextField && HasBg(style.bg) && Luma(style.bg) < 128 ==> s.pen.x <= RIGHT
  }

  /** Exactly then does filling it end: beyond the margin the remaining width wraps, and so does the loop. */
  lemma BarEndsIff(g: Page, s: Layout, f: Field)
    requires 1 <= RowHeight(g, s) <= MAX_ROW && f.width <= 255
    ensures Ends(Fill(s.pen.x, BarWidth(s, f), RowHeight(g, s), true)) <==> s.pen.x <= RIGHT
  {
    hide RowHeight;
  }

  lemma {:induction false} FieldColsEnd(g: Page, s: Layout, f: Field, col: nat, vk: nat, hasBg: bool, ink: bool)
    requires Small(g, s)
    ensures Kept(g, s, FieldCols(g, s, f, col, vk, hasBg, ink))
    decreases FieldWidth(f) - col
  {
    hide AllEnd, FieldCell, Moved;
    if col < FieldWidth(f) && s.pen.x + FONT_ADVANCE <= RIGHT {
      FieldCellEnds(g, s, f, vk, hasBg, ink);
      var s1 := FieldCell(g, s, f, vk, hasBg, ink);
      MovedEnds(g, s1, FONT_ADVANCE);
      FieldColsEnd(g, Moved(s1, FONT_ADVANCE), f, col + 1, if vk < |f.value| then vk + SeqLen(f.value[vk]) else vk, hasBg, ink);
    }
  }

  lemma FieldCellEnds(g: Page, s: Layout, f: Field, vk: nat, hasBg: bool, ink: bool)
    requires Small(g, s)
    ensures Kept(g, s, FieldCell(g, s, f, vk, hasBg, ink))
  {
    hide AllEnd, Put, PutIf;
    if vk < |f.value| {
      PutEnds(g, s, true, Symbol(s.pen.x, if f.masked then [0x2A] else ChunkAt(f.value, vk), ink));
    } else {
      PutEnds(g, s, !hasBg, Symbol(s.pen.x, [0x5F], true));
    }
  }

  lemma TextFieldEnds(g: Page, s: Layout, f: Field, style: Style)
    requires Small(g, s) && f.kind == TextField && f.width <= 255
    ensures var b := OnTextField(g, s, f, style); Small(g, b) && (AllEnd(b.log) <==> AllEnd(s.log) && BarOk(g, s, f, style))
  {
    hide AllEnd, Put, PaintBg, FieldCols, Luma, HasBg, BarWidth;
    var hasBg := HasBg(style.bg);
    var luma := if hasBg then Luma(style.bg) else 255;
    var dark := hasBg && luma < 128;
    RowFits(g, s);
    var w := BarWidth(s, f);
    var s1 := if dark then Put(g, s, Fill(s.pen.x, w, RowHeight(g, s), true)) else if hasBg then PaintBg(g, s, s.pen.x, w, luma) else s;
    if dark {
      BarEndsIff(g, s, f);
      PutEndsIff(g, s, Fill(s.pen.x, w, RowHeight(g, s), true));
      PutPen(g, s, Fill(s.pen.x, w, RowHeight(g, s), true));
    } else if hasBg {
      TextureEnds(g, s, s.pen.x, w, luma);
    }
    FieldColsEnd(g, s1, f, 0, 0, hasBg, !dark);
  }

  lemma MarkEnds(g: Page, s: Layout, f: Field)
    requires Small(g, s)
    ensures Kept(g, s, OnMark(g, s, f))
  {
    hide AllEnd, Put, PutIf;
    if f.kind == Radio {
      var mark := Symbol(s.pen.x, if f.prechecked then [0xE2, 0x97, 0x8F] else [0xE2, 0x97, 0x8B], !s.pen.invert);
      PutEnds(g, s, true, mark);
      MovedEnds(g, Put(g, s, mark), FONT_ADVANCE);
    } else {
      var box := Symbol(s.pen.x, [0xE2, 0x96, 0xA1], !s.pen.invert);
      PutEnds(g, s, true, box);
      var s1 := Put(g, s, box);
      var tick := Symbol(s.pen.x, [0xE2, 0x9C, 0x93], !s.pen.invert);
      PutEnds(g, s1, f.prechecked, tick);
      MovedEnds(g, PutIf(g, s1, f.prechecked, tick), FONT_ADVANCE);
    }
  }

  lemma OnFieldEnds(g: Page, s: Layout, f: Field, style: Style)
    requires Small(g, s) && Chunked(f.caption, 0) && |f.caption| <= MAX_RUN && f.width <= 255
    ensures var b := OnField(g, s, f, style);
      Small(g, b) && (AllEnd(b.log) <==> AllEnd(s.log) && BarOk(g, ToMargin(Deepened(s, style.depth)), f, style))
  {
    hide AllEnd, EmitRun, OnMark, OnTextField, Luma, HasBg;
    var s1 := ToMargin(Deepened(s, style.depth));
    PenEnds(g, s, s1);
    if f.kind == TextField {
      TextFieldEnds(g, s1, f, style);
    } else {
      MarkEnds(g, s1, f);
      var s2 := OnMark(g, s1, f);
      RunEnds(g, s2, OneSpace(), s2.pen.invert);
      var s3 := EmitRun(g, s2, OneSpace(), s2.pen.invert);
      RunEnds(g, s3, f.caption, s3.pen.invert);
    }
  }

  /** A fallback heading below depth two is ruled under its own text, which must not start left of the
      line end's own margin. */
  predicate RuleOk(g: Page, s: Layout, style: Style) {
    Seen(g.view, s.pen.y) && s.pen.headRule && s.pen.rowOpen && style.depth > 2 ==> s.pen.x >= Indent(Deepened(s, style.depth))
  }

  /** Exactly then does drawing that rule end. */
  lemma RuleEndsIff(g: Page, s: Layout, style: Style)
    requires style.depth > 2 && 1 <= RowHeight(g, s) <= MAX_ROW
    ensures Ends(Rule(Indent(s), RowHeight(g, s) - 1, RuleWidth(s, style), true)) <==> s.pen.x >= Indent(s)
  {
    hide RowHeight;
  }

  lemma OnLineEndEnds(g: Page, s: Layout, style: Style)
    requires Small(g, s)
    ensures var b := OnLineEnd(g, s, style); Small(g, b) && (AllEnd(b.log) <==> AllEnd(s.log) && RuleOk(g, s, style))
  {
    hide AllEnd, Put, Closed, RuleWidth, RowHeight;
    var s1 := Deepened(s, style.depth);
    RowFits(g, s1);
    var rule := Rule(Indent(s1), RowHeight(g, s1) - 1, RuleWidth(s1, style), true);
    if style.depth > 2 {
      RuleEndsIff(g, s1, style);
    } else {
      ShortRule(s1, style);
    }
    PutEndsIff(g, s1, rule);
    PutPen(g, s1, rule);
    ClosedEnds(g, PutIf(g, s1, s1.pen.headRule && s1.pen.rowOpen, rule), style, s.pen.head);
  }

  lemma ShortRule(s: Layout, style: Style)
    requires style.depth <= 2
    ensures RuleWidth(s, style) == RIGHT - Indent(s)
  {
  }

  lemma ClosedEnds(g: Page, s: Layout, style: Style, head: nat)
    requires Small(g, s)
    ensures Kept(g, s, Closed(g, s, style, head))
  {
  }

  // ---- Tables ---------------------------------------------------------

  predicate SmallCells(row: Row) {
    forall c :: 0 <= c < |row| ==> |row[c]| <= MAX_RUN
  }

  lemma SliceShorter(p: seq<bv8>, w: nat, ln: nat)
    requires Chunked(p, 0)
    ensures |Slice(p, w, ln)| <= |p|
  {
    hide LineStart, BreakAt;
    LineStartChunked(p, w, ln);
    LineShape(p, LineStart(p, w, ln), w);
  }

  lemma {:induction false} CellsEnd(g: Page, s: Layout, row: Row, fit: seq<nat>, ln: nat, c: nat, x: U16)
    requires Small(g, s) && |row| == |fit| && RowChunked(row) && SmallCells(row)
    ensures Kept(g, s, CellsOn(g, s, row, fit, ln, c, x))
    decreases |row| - c
  {
    hide AllEnd, EmitRun, Slice, Wrap16;
    if c < |row| {
      var t := Slice(row[c], fit[c], ln);
      SliceShorter(row[c], fit[c], ln);
      PenEnds(g, s, AtColumn(s, x));
      RunEnds(g, AtColumn(s, x), t, false);
      var s1 := if t == [] then s else EmitRun(g, AtColumn(s, x), t, false);
      CellsEnd(g, s1, row, fit, ln, c + 1, Wrap16(x + (fit[c] + GAP) * 6));
    }
  }

  lemma {:induction false} GuttersEnd(g: Page, s: Layout, fit: seq<nat>, c: nat, x: U16)
    requires Small(g, s) && x + 6 * SumFrom(fit, c) <= 60000
    ensures Kept(g, s, Gutters(g, s, fit, c, x))
    decreases |fit| - c
  {
    hide AllEnd, PutAnyway;
    if c + 1 < |fit| {
      var x': int := x + (fit[c] + GAP) * 6;
      assert Wrap16(x') == x' && Wrap16(x' - 4) == x' - 4;
      var bar := Fill(x' - 4, 1, LineHeight(g), true);
      AnywayEnds(g, s, bar);
      GuttersEnd(g, PutAnyway(g, s, bar), fit, c + 1, x');
    }
  }

  // A cell wraps at most once for each character it holds.
  lemma {:induction false} LongWrapsFew(left: nat, p: nat, x: U16, n: nat)
    ensures LongWalk(left, p, x, n).rows <= n
    decreases n
  {
    if n > 0 {
      LongWrapsFew(left, p, Wrap16((if x > left && x + p > RIGHT then left else x) + p), n - 1);
    }
  }

  lemma TokenWrapsFew(left: nat, p: nat, x: U16, lead: nat, word: nat)
    requires lead + word > 0
    ensures TokenWalk(left, p, x, lead, word).rows <= lead + word
  {
    LongWrapsFew(left, p, x, lead + word);
    hide LongWalk;
  }

  lemma {:induction false} ProseWrapsFew(left: nat, p: nat, x: U16, t: seq<bv8>, i: nat)
    requires Chunked(t, i)
    ensures ProseWalk(left, p, x, t, i).rows <= ChunkCount(t, i, |t|)
    decreases |t| - i
  {
    hide ChunkCount, Chunked, SkipBlankish, WordEnd, TokenWalk;
    if i < |t| {
      TokenParts(t, i);
      TokenBounds(t, i);
      var sp := SkipBlankish(t, i);
      var e := WordEnd(t, sp);
      SomeWord(t, sp, e);
      TokenWrapsFew(left, p, x, sp - i, ChunkCount(t, sp, e));
      ProseWrapsFew(left, p, TokenWalk(left, p, x, sp - i, ChunkCount(t, sp, e)).x, t, e);
    }
  }

  lemma SomeWord(t: seq<bv8>, sp: nat, e: nat)
    requires e <= |t|
    ensures sp < e ==> ChunkCount(t, sp, e) > 0
  {
  }

  lemma {:induction false} LineWrapsFew(pen: Pen, row: Row, fit: seq<nat>, ln: nat, c: nat, x: U16)
    requires |row| == |fit| && RowChunked(row)
    ensures LineWraps(pen, row, fit, ln, c, x) <= SumFrom(fit, c)
    decreases |row| - c
  {
    hide Slice, ChunkCount, Pace, Indent, ProseWalk, Wrap16;
    if c < |row| {
      var t := Slice(row[c], fit[c], ln);
      SliceShows(row[c], fit[c], ln);
      var s := Layout(AtCell(pen, x), []);
      ProseWrapsFew(Indent(s), Pace(s), x, t, 0);
      LineWrapsFew(pen, row, fit, ln, c + 1, Wrap16(x + (fit[c] + GAP) * 6));
    }
  }

  /** The lines between columns are drawn wherever the line's wraps have left the pen, but never so far down
      that their own loop could not end. */
  lemma GutterRowsEnd(g: Page, s: Layout, row: Row, fit: seq<nat>, ln: nat)
    requires Small(g, s) && |row| == |fit| && RowChunked(row) && SumFrom(fit, 0) <= 100
    requires g.view.Window? && Seen(g.view, s.pen.y)
    ensures ScreenY(g.view, CellsOn(g, s, row, fit, ln, 0, Indent(s)).pen.y) + LineHeight(g) <= 0xFFFF
  {
    hide CellsOn, LineWraps, SumFrom, RowHeight;
    CellsWalk(g, s, s.pen, row, fit, ln, 0, Indent(s));
    LineWrapsFew(s.pen, row, fit, ln, 0, Indent(s));
    var k, h := LineWraps(s.pen, row, fit, ln, 0, Indent(s)), RowHeight(g, Layout(s.pen, []));
    RowFits(g, Layout(s.pen, []));
    assert k * h <= 30000 by { Grows(k, 100, h); }
    NearBy(s.pen.y, g.view.scroll, k * h);
  }

  lemma NearBy(y: nat, scroll: U16, d: nat)
    requires scroll <= Wrap16(y) < scroll + HEIGHT && d <= 30000
    ensures Wrap16(Wrap16(y + d) - scroll) == Wrap16(y) - scroll + d
  {
  }

  lemma TableLineEnds(g: Page, s: Layout, row: Row, fit: seq<nat>, ln: nat)
    requires Small(g, s) && |row| == |fit| && RowChunked(row) && SmallCells(row) && SumFrom(fit, 0) <= 1000
    ensures Kept(g, s, TableLine(g, s, row, fit, ln))
  {
    hide AllEnd, CellsOn, Gutters, SumFrom;
    CellsEnd(g, s, row, fit, ln, 0, Indent(s));
    var s1 := CellsOn(g, s, row, fit, ln, 0, Indent(s));
    GuttersEnd(g, s1, fit, 0, Indent(s));
    var s2 := if LaidOut(g.view, s.pen.y) then LineDrawn(g, s, row, fit, ln) else s;
    PenEnds(g, s2, LineDone(g, s2));
  }

  lemma {:induction false} TableLinesEnd(g: Page, s: Layout, row: Row, fit: seq<nat>, ln: nat, lines: nat)
    requires Small(g, s) && |row| == |fit| && RowChunked(row) && SmallCells(row) && SumFrom(fit, 0) <= 1000
    ensures Kept(g, s, TableLines(g, s, row, fit, ln, lines))
    decreases lines - ln
  {
    hide AllEnd, TableLine, SumFrom;
    if ln < lines {
      TableLineEnds(g, s, row, fit, ln);
      TableLinesEnd(g, TableLine(g, s, row, fit, ln), row, fit, ln + 1, lines);
    }
  }

  lemma {:induction false} TableRowsEnd(g: Page, s: Layout, rows: seq<Row>, fit: seq<nat>, r: nat)
    requires Small(g, s) && TableShape(rows, fit) && SumFrom(fit, 0) <= 1000
    requires forall k :: 0 <= k < |rows| ==> SmallCells(rows[k])
    ensures Kept(g, s, TableRows(g, s, rows, fit, r))
    decreases |rows| - r
  {
    hide AllEnd, TableLines, SumFrom, RowChunked, SmallCells, PutIf, RowLines;
    if r < |rows| {
      var row := rows[r];
      TableLinesEnd(g, s, row, fit, 0, RowLines(row, fit, |row|));
      var s1 := TableLines(g, s, row, fit, 0, RowLines(row, fit, |row|));
      PutEnds(g, s1, r == 0, Rule(Indent(s1), -1, RIGHT - Indent(s1), true));
      TableRowsEnd(g, TableRow(g, s, row, fit, r == 0), rows, fit, r + 1);
    }
  }

  lemma FlushEnds(g: Page, s: Layout, rows: seq<Row>, widths: seq<nat>)
    requires Small(g, s) && TableShape(rows, widths)
    requires forall k :: 0 <= k < |rows| ==> SmallCells(rows[k])
    ensures Kept(g, s, TableFlush(g, s, rows, widths))
  {
    hide AllEnd, TableRows, Fitted, SumFrom, Put, SmallCells, RowChunked;
    if rows != [] && widths != [] {
      var fit := Fitted(widths, TableAvail(s));
      FittedSmall(widths, TableAvail(s));
      TableRowsEnd(g, s, rows, fit, 0);
      var s1 := TableRows(g, s, rows, fit, 0);
      var rule := Rule(Indent(s1), 0, RIGHT - Indent(s1), true);
      PutEnds(g, s1, true, rule);
      PenEnds(g, Put(g, s1, rule), TableFlush(g, s, rows, widths));
    }
  }

  // ---- The theorem ----------------------------------------------------

  /** Every run of at most five thousand bytes, every field at most 255 cells wide. */
  predicate Sized(cb: Callback) {
    match cb
    case Text(t, _) => |t| <= MAX_RUN
    case LinkTo(caption, _, _) => |caption| <= MAX_RUN
    case FieldOf(f, _) => |f.caption| <= MAX_RUN && f.width <= 255
    case Table(rows, _, _) => forall r :: 0 <= r < |rows| ==> SmallCells(rows[r])
    case Image(alt, url, _) => |alt| <= MAX_RUN && |url| <= MAX_RUN
    case Partial(url, _) => |url| <= MAX_RUN
    case _ => true
  }

  /** The two callbacks that can ask for a fill that never ends, where they are on screen. */
  predicate Drawable(g: Page, s: Layout, cb: Callback) {
    && (cb.FieldOf? ==> BarOk(g, ToMargin(Deepened(s, cb.style.depth)), cb.field, cb.style))
    && (cb.LineEnd? ==> RuleOk(g, s, cb.style))
  }

  /** On the whole page or in any frame, a callback adds only fills that end exactly when it is neither a dark
      field beyond the margin nor a line end whose rule would start right of the pen. */
  lemma StepEnds(g: Page, s: Layout, cb: Callback)
    requires Small(g, s) && WellFormed(cb) && Sized(cb)
    ensures var b := Step(g, s, cb); Small(g, b) && (AllEnd(b.log) <==> AllEnd(s.log) && Drawable(g, s, cb))
  {
    hide AllEnd, EmitRun, OnLink, OnField, OnLineEnd, TableFlush, DividerFrom, Styled, BarOk, RuleOk, Natural;
    match cb
    case Text(t, style) =>
      StyledEnds(g, s, t, style);
      RunEnds(g, Styled(g, s, t, style), t, Styled(g, s, t, style).pen.invert);
    case LinkTo(caption, target, style) => OnLinkEnds(g, s, caption, target, style);
    case Divider(ch, style) => OnDividerEnds(g, s, ch, style);
    case FieldOf(f, style) => OnFieldEnds(g, s, f, style);
    case LineEnd(style) => OnLineEndEnds(g, s, style);
    case Table(rows, widths, style) =>
      PenEnds(g, s, Deepened(s, style.depth));
      FlushEnds(g, Deepened(s, style.depth), rows, widths);
    case Image(alt, url, style) =>
      PenEnds(g, s, Deepened(s, style.depth));
      TwoRunsEnd(g, Deepened(s, style.depth), Ascii([0x5B, 0x69, 0x6D, 0x67, 0x5D, 0x20]), if alt != [] then alt else url);
    case Partial(url, style) =>
      var s1 := Deepened(s, style.depth);
      PenEnds(g, s, s1);
      RunEnds(g, s1, Ascii([0x5B, 0x2B, 0x5D, 0x20]), s1.pen.invert);
      OnLinkEnds(g, EmitRun(g, s1, Ascii([0x5B, 0x2B, 0x5D, 0x20]), s1.pen.invert), url, url, style);
    case Blank => PenEnds(g, s, OnBlank(g, s));
  }

  lemma TwoRunsEnd(g: Page, s: Layout, a: seq<bv8>, b: seq<bv8>)
    requires Small(g, s) && Chunked(a, 0) && Chunked(b, 0) && |a| <= MAX_RUN && |b| <= MAX_RUN
    ensures var s1 := EmitRun(g, s, a, s.pen.invert); Kept(g, s, EmitRun(g, s1, b, s1.pen.invert))
  {
    hide AllEnd, EmitRun;
    RunEnds(g, s, a, s.pen.invert);
    var s1 := EmitRun(g, s, a, s.pen.invert);
    RunEnds(g, s1, b, s1.pen.invert);
  }

  lemma OnDividerEnds(g: Page, s: Layout, ch: bv32, style: Style)
    requires Small(g, s)
    ensures Kept(g, s, OnDivider(g, s, ch, style))
  {
    hide AllEnd, DividerFrom, DividerBytes;
    var s1 := ToMargin(Deepened(s, style.depth));
    PenEnds(g, s, s1);
    DividerEnds(g, s1, Indent(s1), DividerBytes(ch));
    var s2 := DividerFrom(g, s1, Indent(s1), DividerBytes(ch));
    PenEnds(g, s2, Opened(s2));
  }

  predicate AllSized(cbs: seq<Callback>) {
    forall i :: 0 <= i < |cbs| ==> WellFormed(cbs[i]) && Sized(cbs[i])
  }

  /** Every callback of the sequence can be drawn when its turn comes. */
  predicate DrawableRun(g: Page, s: Layout, cbs: seq<Callback>)
    requires AllSized(cbs)
    decreases |cbs|
  {
    cbs == [] || (Drawable(g, s, cbs[0]) && DrawableRun(g, Step(g, s, cbs[0]), cbs[1..]))
  }

  /** Over every sequence, on the whole page and in every frame at every scroll offset: each rectangle and
      rule asked for can be drawn exactly when no callback is one of those two. */
  lemma {:induction false} EveryFillEndsIff(g: Page, s: Layout, cbs: seq<Callback>)
    requires Small(g, s) && AllSized(cbs)
    ensures AllEnd(Run(g, s, cbs).log) <==> AllEnd(s.log) && DrawableRun(g, s, cbs)
    decreases |cbs|
  {
    hide Step, Drawable, AllEnd, Sized, WellFormed;
    if cbs != [] {
      StepEnds(g, s, cbs[0]);
      EveryFillEndsIff(g, Step(g, s, cbs[0]), cbs[1..]);
    }
  }
}
