// Exactly which pages every frame lays out alike.
module LayoutHeights {
  import opened Geometry
  import opened Utf8
  import opened Chunks
  import opened CellWalk
  import opened TableFit
  import opened Arith
  import opened LayoutTypes
  import opened LayoutSpec
  import opened LayoutWalk
  import opened LayoutTables
  import opened LayoutScroll

  // ---- The same pen further down --------------------------------------

  /** b's pen is a's, d rows of pixels further down. */
  predicate Below(a: Layout, b: Layout, d: nat) {
    b.pen == a.pen.(y := a.pen.y + d)
  }

  lemma BelowKeeps(ga: Page, gb: Page, a: Layout, b: Layout, d: nat)
    requires ga.cfg == gb.cfg && Below(a, b, d)
    ensures Pace(b) == Pace(a) && Indent(b) == Indent(a) && RowHeight(gb, b) == RowHeight(ga, a) && LineHeight(gb) == LineHeight(ga)
  {
  }

  lemma BelowReads(a: Layout, b: Layout, d: nat)
    requires Below(a, b, d)
    ensures b.pen.x == a.pen.x && b.pen.rowOpen == a.pen.rowOpen && b.pen.invert == a.pen.invert && b.pen.literal == a.pen.literal
  {
  }

  lemma BelowPens(a: Layout, b: Layout, d: nat, c: Layout, e: Layout)
    requires Below(a, b, d) && c.pen == a.pen && e.pen == b.pen
    ensures Below(c, e, d)
  {
  }

  lemma BelowAlong(a: Layout, b: Layout, d: nat, c: Layout, e: Layout, x: U16, rowOpen: bool)
    requires Below(a, b, d) && c.pen == a.pen.(x := x, rowOpen := rowOpen) && e.pen == b.pen.(x := x, rowOpen := rowOpen)
    ensures Below(c, e, d)
  {
  }

  lemma BelowNewlines(ga: Page, gb: Page, a: Layout, b: Layout, d: nat)
    requires ga.cfg == gb.cfg && Below(a, b, d)
    ensures Below(Newline(ga, a), Newline(gb, b), d)
  {
    BelowKeeps(ga, gb, a, b, d);
    hide RowHeight, Indent;
  }

  lemma BelowMargins(a: Layout, b: Layout, d: nat, depth: nat)
    requires Below(a, b, d)
    ensures Below(Deepened(a, depth), Deepened(b, depth), d) && Below(ToMargin(Deepened(a, depth)), ToMargin(Deepened(b, depth)), d)
  {
  }

  lemma {:induction false} LongOpens(g: Page, s: Layout, t: seq<bv8>, k: nat, e: nat, invert: bool)
    requires e <= |t|
    ensures k < e || s.pen.rowOpen ==> LongWord(g, s, t, k, e, invert).pen.rowOpen
    ensures !(k < e) ==> LongWord(g, s, t, k, e, invert) == s
    decreases e - k
  {
    hide WrapIfNeeded, PutGlyph, Pace;
    if k < e {
      var s1 := WrapIfNeeded(g, s, Pace(s));
      LongOpens(g, Moved(PutGlyph(g, s1, ChunkAt(t, k), invert), Pace(s1)), t, k + SeqLen(t[k]), e, invert);
    }
  }

  lemma LongBelow(ga: Page, gb: Page, a: Layout, b: Layout, d: nat, t: seq<bv8>, k: nat, e: nat, invert: bool)
    requires ga.cfg == gb.cfg && Below(a, b, d) && e <= |t|
    ensures Below(LongWord(ga, a, t, k, e, invert), LongWord(gb, b, t, k, e, invert), d)
  {
    hide LongWord, LongWalk, ChunkCount, Pace, Indent, RowHeight;
    BelowKeeps(ga, gb, a, b, d);
    LongWalks(ga, a, t, k, e, invert);
    LongWalks(gb, b, t, k, e, invert);
    LongOpens(ga, a, t, k, e, invert);
    LongOpens(gb, b, t, k, e, invert);
    PenOnly(ga, a);
    PenOnly(gb, b);
  }

  lemma WordBelowToo(ga: Page, gb: Page, a: Layout, b: Layout, d: nat, t: seq<bv8>, k: nat, e: nat, invert: bool)
    requires ga.cfg == gb.cfg && Below(a, b, d) && e <= |t|
    ensures Below(Word(ga, a, t, k, e, invert), Word(gb, b, t, k, e, invert), d)
  {
    hide Word, ChunkCount, Pace;
    BelowKeeps(ga, gb, a, b, d);
    WordWalks(ga, a, t, k, e, invert);
    WordWalks(gb, b, t, k, e, invert);
  }

  lemma TokenBelow(ga: Page, gb: Page, a: Layout, b: Layout, d: nat, t: seq<bv8>, i: nat, sp: nat, e: nat, invert: bool)
    requires ga.cfg == gb.cfg && Below(a, b, d) && i <= sp <= e <= |t|
    ensures Below(Token(ga, a, t, i, sp, e, invert), Token(gb, b, t, i, sp, e, invert), d)
  {
    hide Word, LongWord, Lead, ChunkCount, Pace, Indent, RowHeight, Below, Newline;
    BelowKeeps(ga, gb, a, b, d);
    BelowReads(a, b, d);
    LongBelow(ga, gb, a, b, d, t, i, e, invert);
    var leadW := LeadWidth(a, i, sp);
    LeadWalks(ga, a, leadW, invert);
    LeadWalks(gb, b, leadW, invert);
    BelowAlong(a, b, d, Lead(ga, a, leadW, invert), Lead(gb, b, leadW, invert), Wrap16(a.pen.x + leadW), true);
    BelowNewlines(ga, gb, a, b, d);
    WordBelowToo(ga, gb, Newline(ga, a), Newline(gb, b), d, t, sp, e, invert);
    WordBelowToo(ga, gb, Lead(ga, a, leadW, invert), Lead(gb, b, leadW, invert), d, t, sp, e, invert);
    WordBelowToo(ga, gb, a, b, d, t, sp, e, invert);
  }

  lemma {:induction false} TokensBelow(ga: Page, gb: Page, a: Layout, b: Layout, d: nat, t: seq<bv8>, i: nat, invert: bool)
    requires ga.cfg == gb.cfg && Below(a, b, d) && Chunked(t, i)
    ensures Below(Tokens(ga, a, t, i, invert), Tokens(gb, b, t, i, invert), d)
    decreases |t| - i
  {
    hide Token, Below;
    if i < |t| {
      TokenBounds(t, i);
      var sp := SkipBlankish(t, i);
      var e := WordEnd(t, sp);
      TokenBelow(ga, gb, a, b, d, t, i, sp, e, invert);
      TokensBelow(ga, gb, Token(ga, a, t, i, sp, e, invert), Token(gb, b, t, i, sp, e, invert), d, t, e, invert);
    }
  }

  lemma {:induction false} LiteralBelow(ga: Page, gb: Page, a: Layout, b: Layout, d: nat, t: seq<bv8>, k: nat, invert: bool)
    requires ga.cfg == gb.cfg && Below(a, b, d)
    ensures Below(LiteralFrom(ga, a, t, k, invert), LiteralFrom(gb, b, t, k, invert), d)
    decreases |t| - k
  {
    hide LiteralCellOf, Clipped, Below;
    if k < |t| {
      BelowReads(a, b, d);
      LiteralCellPen(ga, a, ChunkAt(t, k), invert);
      LiteralCellPen(gb, b, ChunkAt(t, k), invert);
      if a.pen.x + FONT_ADVANCE <= RIGHT {
        var c, e := LiteralCellOf(ga, a, ChunkAt(t, k), invert), LiteralCellOf(gb, b, ChunkAt(t, k), invert);
        BelowAlong(a, b, d, c, e, a.pen.x + FONT_ADVANCE, true);
        LiteralBelow(ga, gb, c, e, d, t, k + SeqLen(t[k]), invert);
      } else {
        BelowAlong(a, b, d, Clipped(ga, a, invert), Clipped(gb, b, invert), a.pen.x, true);
      }
    }
  }

  lemma RunBelow(ga: Page, gb: Page, a: Layout, b: Layout, d: nat, t: seq<bv8>, invert: bool)
    requires ga.cfg == gb.cfg && Below(a, b, d) && Chunked(t, 0)
    ensures Below(EmitRun(ga, a, t, invert), EmitRun(gb, b, t, invert), d)
  {
    hide Tokens, LiteralFrom;
    LiteralBelow(ga, gb, ToMargin(a), ToMargin(b), d, t, 0, invert);
    TokensBelow(ga, gb, PullBack(a), PullBack(b), d, t, 0, invert);
  }

  // ---- Callbacks ------------------------------------------------------

  lemma {:induction false} AllInAlike(ga: Page, gb: Page, face: Face, t: seq<bv8>, k: nat)
    requires ga.cfg == gb.cfg
    ensures AllIn(ga, face, t, k) == AllIn(gb, face, t, k)
    decreases |t| - k
  {
    if k < |t| {
      AllInAlike(ga, gb, face, t, k + SeqLen(t[k]));
    }
  }

  lemma HeadedBelow(ga: Page, gb: Page, a: Layout, b: Layout, d: nat, t: seq<bv8>, style: Style)
    requires ga.cfg == gb.cfg && Below(a, b, d)
    ensures Below(Headed(ga, a, t, style), Headed(gb, b, t, style), d)
  {
    AllInAlike(ga, gb, HeadFace(HeadWanted(style.depth)), t, 0);
    assert TakesHead(ga, a.pen.rowOpen, t, style) == TakesHead(gb, b.pen.rowOpen, t, style);
    hide TakesHead, FaceHeight, HeadFace, HeadWanted;
  }

  lemma AlignedBelow(a: Layout, b: Layout, d: nat, t: seq<bv8>, align: Align)
    requires Below(a, b, d)
    ensures Below(Aligned(a, t, align), Aligned(b, t, align), d)
  {
    assert Pace(a) == Pace(b) && Indent(a) == Indent(b);
    hide Cells, Wrap16, Pace, Indent;
  }

  lemma StyledBelow(ga: Page, gb: Page, a: Layout, b: Layout, d: nat, t: seq<bv8>, style: Style)
    requires ga.cfg == gb.cfg && Below(a, b, d)
    ensures Below(Styled(ga, a, t, style), Styled(gb, b, t, style), d)
  {
    hide Headed, Aligned, Luma, HasBg, Below, Backed, Faced, Started;
    var a1, b1 := Started(a, style), Started(b, style);
    StartedBelow(a, b, d, style);
    var a2, b2 := Aligned(a1, t, style.align), Aligned(b1, t, style.align);
    AlignedBelow(a1, b1, d, t, style.align);
    var a3, b3 := Backed(a2, style), Backed(b2, style);
    BackedBelow(a2, b2, d, style);
    HeadedBelow(ga, gb, a3, b3, d, t, style);
    FacedBelow(ga, gb, Headed(ga, a3, t, style), Headed(gb, b3, t, style), d, style);
    StyledParts(ga, a, t, style);
    StyledParts(gb, b, t, style);
  }

  function Started(s: Layout, style: Style): Layout {
    ToMargin(s.(pen := s.pen.(depth := style.depth, blankPending := false, literal := style.literal)))
  }

  lemma StartedBelow(a: Layout, b: Layout, d: nat, style: Style)
    requires Below(a, b, d)
    ensures Below(Started(a, style), Started(b, style), d)
  {
  }

  lemma StyledParts(g: Page, s: Layout, t: seq<bv8>, style: Style)
    ensures Styled(g, s, t, style) == Faced(g, Headed(g, Backed(Aligned(Started(s, style), t, style.align), style), t, style), style)
  {
    hide Headed, Aligned, Luma, HasBg, ToMargin;
  }

  function Backed(s: Layout, style: Style): Layout {
    s.(pen := s.pen.(hasBg := HasBg(style.bg), bgLuma := Luma(style.bg)))
  }

  lemma BackedBelow(a: Layout, b: Layout, d: nat, style: Style)
    requires Below(a, b, d)
    ensures Below(Backed(a, style), Backed(b, style), d)
  {
    hide HasBg, Luma;
  }

  function Faced(g: Page, s: Layout, style: Style): Layout {
    s.(pen := s.pen.(bold := style.bold && s.pen.head == 0, underline := style.underline,
        headRule := g.cfg.stepped && style.heading && style.depth >= 2 && s.pen.head == 0,
        invert := HasBg(style.bg) && Luma(style.bg) < 128))
  }

  lemma FacedBelow(ga: Page, gb: Page, a: Layout, b: Layout, d: nat, style: Style)
    requires ga.cfg == gb.cfg && Below(a, b, d)
    ensures Below(Faced(ga, a, style), Faced(gb, b, style), d)
  {
    hide HasBg, Luma;
  }

  lemma TextBelow(ga: Page, gb: Page, a: Layout, b: Layout, d: nat, t: seq<bv8>, style: Style)
    requires ga.cfg == gb.cfg && Below(a, b, d) && Chunked(t, 0)
    ensures Below(OnText(ga, a, t, style), OnText(gb, b, t, style), d)
  {
    hide Styled, EmitRun;
    StyledBelow(ga, gb, a, b, d, t, style);
    RunBelow(ga, gb, Styled(ga, a, t, style), Styled(gb, b, t, style), d, t, Styled(ga, a, t, style).pen.invert);
  }

  lemma LinkBelow(ga: Page, gb: Page, a: Layout, b: Layout, d: nat, caption: seq<bv8>, target: seq<bv8>, style: Style)
    requires ga.cfg == gb.cfg && Below(a, b, d) && Chunked(caption, 0)
    ensures Below(OnLink(ga, a, caption, target, style), OnLink(gb, b, caption, target, style), d)
  {
    hide EmitRun, Below, ToMargin, Deepened, Put;
    var a1, b1 := ToMargin(Deepened(a, style.depth)), ToMargin(Deepened(b, style.depth));
    BelowMargins(a, b, d, style.depth);
    BelowReads(a1, b1, d);
    RunBelow(ga, gb, a1, b1, d, caption, a1.pen.invert);
    LinkPen(ga, a, caption, target, style);
    LinkPen(gb, b, caption, target, style);
    BelowPens(EmitRun(ga, a1, caption, a1.pen.invert), EmitRun(gb, b1, caption, b1.pen.invert), d,
              OnLink(ga, a, caption, target, style), OnLink(gb, b, caption, target, style));
  }

  lemma LinkPen(g: Page, s: Layout, caption: seq<bv8>, target: seq<bv8>, style: Style)
    requires Chunked(caption, 0)
    ensures var s1 := ToMargin(Deepened(s, style.depth)); OnLink(g, s, caption, target, style).pen == EmitRun(g, s1, caption, s1.pen.invert).pen
  {
    hide EmitRun, ToMargin;
  }

  lemma {:induction false} DividerStays(g: Page, s: Layout, x: nat, bytes: seq<bv8>)
    ensures DividerFrom(g, s, x, bytes).pen == s.pen
    decreases RIGHT - x
  {
    hide Put;
    if x + FONT_ADVANCE <= RIGHT {
      PutPen(g, s, Symbol(x, bytes, true));
      DividerStays(g, Put(g, s, Symbol(x, bytes, true)), x + FONT_ADVANCE, bytes);
    }
  }

  lemma CellPen(g: Page, s: Layout, f: Field, vk: nat, hasBg: bool, ink: bool)
    ensures FieldCell(g, s, f, vk, hasBg, ink).pen == s.pen
  {
  }

  lemma {:induction false} ColsBelow(ga: Page, gb: Page, a: Layout, b: Layout, d: nat, f: Field, col: nat, vk: nat, hasBg: bool, ink: bool)
    requires ga.cfg == gb.cfg && Below(a, b, d)
    ensures Below(FieldCols(ga, a, f, col, vk, hasBg, ink), FieldCols(gb, b, f, col, vk, hasBg, ink), d)
    decreases FieldWidth(f) - col
  {
    hide FieldCell;
    if col < FieldWidth(f) && a.pen.x + FONT_ADVANCE <= RIGHT {
      CellPen(ga, a, f, vk, hasBg, ink);
      CellPen(gb, b, f, vk, hasBg, ink);
      ColsBelow(ga, gb, Moved(FieldCell(ga, a, f, vk, hasBg, ink), FONT_ADVANCE), Moved(FieldCell(gb, b, f, vk, hasBg, ink), FONT_ADVANCE), d,
                f, col + 1, if vk < |f.value| then vk + SeqLen(f.value[vk]) else vk, hasBg, ink);
    }
  }

  lemma TextFieldBelow(ga: Page, gb: Page, a: Layout, b: Layout, d: nat, f: Field, style: Style)
    requires ga.cfg == gb.cfg && Below(a, b, d)
    ensures Below(OnTextField(ga, a, f, style), OnTextField(gb, b, f, style), d)
  {
    hide FieldCols, Luma, HasBg, BarWidth, Below;
    var hasBg := HasBg(style.bg);
    var luma := if hasBg then Luma(style.bg) else 255;
    var dark := hasBg && luma < 128;
    var a1 := Barred(ga, a, f, hasBg, luma);
    var b1 := Barred(gb, b, f, hasBg, luma);
    BelowPens(a, b, d, a1, b1);
    ColsBelow(ga, gb, a1, b1, d, f, 0, 0, hasBg, !dark);
  }

  // The field's bar, as its branches draw it.
  function Barred(g: Page, s: Layout, f: Field, hasBg: bool, luma: nat): (b: Layout)
    ensures b.pen == s.pen
  {
    if hasBg && luma < 128 then Put(g, s, Fill(s.pen.x, BarWidth(s, f), RowHeight(g, s), true))
    else if hasBg then PaintBg(g, s, s.pen.x, BarWidth(s, f), luma)
    else s
  }

  lemma MarkPen(g: Page, s: Layout, f: Field)
    ensures OnMark(g, s, f).pen == s.pen.(x := Wrap16(s.pen.x + FONT_ADVANCE), rowOpen := true)
  {
    hide Put;
    var circle := Symbol(s.pen.x, if f.prechecked then [0xE2, 0x97, 0x8F] else [0xE2, 0x97, 0x8B], !s.pen.invert);
    var box := Symbol(s.pen.x, [0xE2, 0x96, 0xA1], !s.pen.invert);
    PutPen(g, s, circle);
    PutPen(g, s, box);
    PutPen(g, Put(g, s, box), Symbol(s.pen.x, [0xE2, 0x9C, 0x93], !s.pen.invert));
  }

  lemma FieldBelow(ga: Page, gb: Page, a: Layout, b: Layout, d: nat, f: Field, style: Style)
    requires ga.cfg == gb.cfg && Below(a, b, d) && Chunked(f.caption, 0)
    ensures Below(OnField(ga, a, f, style), OnField(gb, b, f, style), d)
  {
    hide EmitRun, OnTextField, OnMark;
    var a1, b1 := ToMargin(Deepened(a, style.depth)), ToMargin(Deepened(b, style.depth));
    TextFieldBelow(ga, gb, a1, b1, d, f, style);
    MarkPen(ga, a1, f);
    MarkPen(gb, b1, f);
    var a2, b2 := OnMark(ga, a1, f), OnMark(gb, b1, f);
    RunBelow(ga, gb, a2, b2, d, OneSpace(), a2.pen.invert);
    var a3, b3 := EmitRun(ga, a2, OneSpace(), a2.pen.invert), EmitRun(gb, b2, OneSpace(), b2.pen.invert);
    RunBelow(ga, gb, a3, b3, d, f.caption, a3.pen.invert);
  }

  lemma LineEndBelow(ga: Page, gb: Page, a: Layout, b: Layout, d: nat, style: Style)
    requires ga.cfg == gb.cfg && Below(a, b, d)
    ensures Below(OnLineEnd(ga, a, style), OnLineEnd(gb, b, style), d)
  {
    hide RuleWidth, Below, Closed, PutIf, Deepened;
    var a1, b1 := Deepened(a, style.depth), Deepened(b, style.depth);
    BelowMargins(a, b, d, style.depth);
    BelowHeads(a, b, d);
    var a2 := RuledOff(ga, a1, style);
    var b2 := RuledOff(gb, b1, style);
    BelowPens(a1, b1, d, a2, b2);
    ClosedBelow(ga, gb, a2, b2, d, style, a.pen.head);
    assert OnLineEnd(ga, a, style) == Closed(ga, a2, style, a.pen.head);
    assert OnLineEnd(gb, b, style) == Closed(gb, b2, style, b.pen.head);
  }

  function RuledOff(g: Page, s: Layout, style: Style): (b: Layout)
    ensures b.pen == s.pen
  {
    PutIf(g, s, s.pen.headRule && s.pen.rowOpen, Rule(Indent(s), RowHeight(g, s) - 1, RuleWidth(s, style), true))
  }

  lemma BelowHeads(a: Layout, b: Layout, d: nat)
    requires Below(a, b, d)
    ensures b.pen.head == a.pen.head
  {
  }

  lemma ClosedBelow(ga: Page, gb: Page, a: Layout, b: Layout, d: nat, style: Style, head: nat)
    requires ga.cfg == gb.cfg && Below(a, b, d)
    ensures Below(Closed(ga, a, style, head), Closed(gb, b, style, head), d)
  {
    hide Newline;
    BelowNewlines(ga, gb, a, b, d);
  }

  lemma TwoBelow(ga: Page, gb: Page, a: Layout, b: Layout, d: nat, t: seq<bv8>, u: seq<bv8>)
    requires ga.cfg == gb.cfg && Below(a, b, d) && Chunked(t, 0) && Chunked(u, 0)
    ensures var a1, b1 := EmitRun(ga, a, t, a.pen.invert), EmitRun(gb, b, t, b.pen.invert);
      Below(a1, b1, d) && Below(EmitRun(ga, a1, u, a1.pen.invert), EmitRun(gb, b1, u, b1.pen.invert), d)
  {
    hide EmitRun;
    RunBelow(ga, gb, a, b, d, t, a.pen.invert);
    var a1, b1 := EmitRun(ga, a, t, a.pen.invert), EmitRun(gb, b, t, b.pen.invert);
    RunBelow(ga, gb, a1, b1, d, u, a1.pen.invert);
  }

  lemma PartialBelow(ga: Page, gb: Page, a: Layout, b: Layout, d: nat, url: seq<bv8>, style: Style)
    requires ga.cfg == gb.cfg && Below(a, b, d) && Chunked(url, 0)
    ensures Below(OnPartial(ga, a, url, style), OnPartial(gb, b, url, style), d)
  {
    hide EmitRun, OnLink;
    var a1, b1 := Deepened(a, style.depth), Deepened(b, style.depth);
    var tag := Ascii([0x5B, 0x2B, 0x5D, 0x20]);
    RunBelow(ga, gb, a1, b1, d, tag, a1.pen.invert);
    LinkBelow(ga, gb, EmitRun(ga, a1, tag, a1.pen.invert), EmitRun(gb, b1, tag, b1.pen.invert), d, url, url, style);
  }

  lemma DividerBelow(ga: Page, gb: Page, a: Layout, b: Layout, d: nat, ch: bv32, style: Style)
    requires ga.cfg == gb.cfg && Below(a, b, d)
    ensures Below(OnDivider(ga, a, ch, style), OnDivider(gb, b, ch, style), d)
  {
    hide DividerFrom, DividerBytes, ToMargin, Below;
    var a1, b1 := ToMargin(Deepened(a, style.depth)), ToMargin(Deepened(b, style.depth));
    BelowMargins(a, b, d, style.depth);
    BelowReads(a1, b1, d);
    DividerStays(ga, a1, Indent(a1), DividerBytes(ch));
    DividerStays(gb, b1, Indent(b1), DividerBytes(ch));
    BelowAlong(a1, b1, d, OnDivider(ga, a, ch, style), OnDivider(gb, b, ch, style), a1.pen.x, true);
  }

  lemma BlankBelow(ga: Page, gb: Page, a: Layout, b: Layout, d: nat)
    requires ga.cfg == gb.cfg && Below(a, b, d)
    ensures Below(OnBlank(ga, a), OnBlank(gb, b), d)
  {
  }

  /** Nothing but a table depends on where the pen stands or what is in view. */
  lemma StepBelow(ga: Page, gb: Page, a: Layout, b: Layout, d: nat, cb: Callback)
    requires ga.cfg == gb.cfg && Below(a, b, d) && WellFormed(cb) && !cb.Table?
    ensures Below(Step(ga, a, cb), Step(gb, b, cb), d)
  {
    hide OnText, OnLink, OnDivider, OnField, OnLineEnd, EmitRun, OnPartial, Below, OnBlank;
    match cb
    case Text(t, style) => TextBelow(ga, gb, a, b, d, t, style);
    case LinkTo(caption, target, style) => LinkBelow(ga, gb, a, b, d, caption, target, style);
    case Divider(ch, style) => DividerBelow(ga, gb, a, b, d, ch, style);
    case FieldOf(f, style) => FieldBelow(ga, gb, a, b, d, f, style);
    case LineEnd(style) => LineEndBelow(ga, gb, a, b, d, style);
    case Image(alt, url, style) =>
      BelowMargins(a, b, d, style.depth);
      TwoBelow(ga, gb, Deepened(a, style.depth), Deepened(b, style.depth), d, Ascii([0x5B, 0x69, 0x6D, 0x67, 0x5D, 0x20]), if alt != [] then alt else url);
    case Partial(url, style) => PartialBelow(ga, gb, a, b, d, url, style);
    case Blank => BlankBelow(ga, gb, a, b, d);
  }

  // ---- Tables ---------------------------------------------------------

  lemma FlushPenOnly(g: Page, a: Layout, b: Layout, rows: seq<Row>, widths: seq<nat>)
    requires TableShape(rows, widths) && a.pen == b.pen
    ensures TableFlush(g, a, rows, widths).pen == TableFlush(g, b, rows, widths).pen
  {
    hide TableFlush, Fitted, RowsY;
    if rows == [] || widths == [] {
      FlushOfNothing(a, rows, widths);
      FlushOfNothing(b, rows, widths);
    } else {
      FlushWalks(g, a, rows, widths);
      FlushWalks(g, b, rows, widths);
    }
  }

  lemma BelowAlike(a: Layout, b: Layout, d: nat)
    requires Below(a, b, d)
    ensures Alike(a.pen, b.pen) && Alike(a.pen, a.pen) && b.pen.y == a.pen.y + d
  {
  }

  lemma HomesBelow(pen: Pen, a: Layout, b: Layout, d: nat)
    requires Home(pen, a.pen) && Home(pen, b.pen) && b.pen.y == a.pen.y + d
    ensures Below(a, b, d)
  {
  }

  /** What the frame beyond the page has fallen behind it never catches up in a table. */
  lemma FlushLag(g: Page, a: Layout, b: Layout, d: nat, rows: seq<Row>, widths: seq<nat>) returns (e: nat)
    requires TableShape(rows, widths) && Below(a, b, d) && TableFlush(In(g.cfg, PAST), a, rows, widths).pen.y <= PAST
    ensures e >= d && Below(TableFlush(In(g.cfg, PAST), a, rows, widths), TableFlush(g, b, rows, widths), e)
  {
    hide TableFlush, Fitted, RowsY, Home, RowLines, Alike;
    if rows == [] || widths == [] {
      FlushOfNothing(a, rows, widths);
      FlushOfNothing(b, rows, widths);
      e := d;
    } else {
      var past := In(g.cfg, PAST);
      var fit := Fitted(widths, TableAvail(Layout(a.pen, [])));
      BelowAlike(a, b, d);
      FlushWalksFrom(past, a, a.pen, rows, widths);
      FlushWalksFrom(g, b, a.pen, rows, widths);
      RowsLag(g, a.pen, rows, fit, 0, a.pen.y, b.pen.y, d);
      e := TableFlush(g, b, rows, widths).pen.y - TableFlush(past, a, rows, widths).pen.y;
      HomesBelow(a.pen, TableFlush(past, a, rows, widths), TableFlush(g, b, rows, widths), e);
    }
  }

  lemma FlushGrows(g: Page, s: Layout, rows: seq<Row>, widths: seq<nat>)
    requires TableShape(rows, widths)
    ensures TableFlush(g, s, rows, widths).pen.y >= s.pen.y
  {
    hide TableFlush, Fitted, RowsY;
    if rows == [] || widths == [] {
      FlushOfNothing(s, rows, widths);
    } else {
      FlushWalks(g, s, rows, widths);
      RowsGrow(g, s.pen, rows, Fitted(widths, TableAvail(Layout(s.pen, []))), 0, s.pen.y);
    }
  }

  lemma StepLag(g: Page, a: Layout, b: Layout, d: nat, cb: Callback) returns (e: nat)
    requires Below(a, b, d) && WellFormed(cb) && Step(In(g.cfg, PAST), a, cb).pen.y <= PAST
    ensures e >= d && Below(Step(In(g.cfg, PAST), a, cb), Step(g, b, cb), e)
  {
    match cb
    case Table(rows, widths, style) =>
      hide TableFlush, Natural;
      e := FlushLag(g, Deepened(a, style.depth), Deepened(b, style.depth), d, rows, widths);
    case _ =>
      hide Step, Natural;
      StepBelow(In(g.cfg, PAST), g, a, b, d, cb);
      e := d;
  }

  // ---- The page only grows --------------------------------------------

  lemma RunGrows(g: Page, s: Layout, t: seq<bv8>, invert: bool)
    requires Chunked(t, 0)
    ensures EmitRun(g, s, t, invert).pen.y >= s.pen.y
  {
    hide EmitRun, RunWalk, RowHeight;
    RunWalks(g, s, t, invert);
    Grows(0, RunWalk(s.pen, t).rows, RowHeight(g, Layout(s.pen, [])));
  }

  lemma StyledY(g: Page, s: Layout, t: seq<bv8>, style: Style)
    ensures Styled(g, s, t, style).pen.y == s.pen.y
  {
    hide AlignedX, TakesHead, Luma, HasBg;
  }

  lemma TextFieldY(g: Page, s: Layout, f: Field, style: Style)
    ensures OnTextField(g, s, f, style).pen.y == s.pen.y
  {
    hide FieldCols, Luma, HasBg, BarWidth;
    var hasBg := HasBg(style.bg);
    var luma := if hasBg then Luma(style.bg) else 255;
    var dark := hasBg && luma < 128;
    var s1 := if dark then Put(g, s, Fill(s.pen.x, BarWidth(s, f), RowHeight(g, s), true)) else if hasBg then PaintBg(g, s, s.pen.x, BarWidth(s, f), luma) else s;
    ColsY(g, s1, f, 0, 0, hasBg, !dark);
  }

  lemma {:induction false} ColsY(g: Page, s: Layout, f: Field, col: nat, vk: nat, hasBg: bool, ink: bool)
    ensures FieldCols(g, s, f, col, vk, hasBg, ink).pen.y == s.pen.y
    decreases FieldWidth(f) - col
  {
    hide FieldCell;
    if col < FieldWidth(f) && s.pen.x + FONT_ADVANCE <= RIGHT {
      CellPen(g, s, f, vk, hasBg, ink);
      ColsY(g, Moved(FieldCell(g, s, f, vk, hasBg, ink), FONT_ADVANCE), f, col + 1,
            if vk < |f.value| then vk + SeqLen(f.value[vk]) else vk, hasBg, ink);
    }
  }

  lemma FieldGrows(g: Page, s: Layout, f: Field, style: Style)
    requires Chunked(f.caption, 0)
    ensures OnField(g, s, f, style).pen.y >= s.pen.y
  {
    hide EmitRun, OnTextField, OnMark;
    var s1 := ToMargin(Deepened(s, style.depth));
    TextFieldY(g, s1, f, style);
    MarkPen(g, s1, f);
    var s2 := OnMark(g, s1, f);
    TwoGrow(g, s2, OneSpace(), f.caption);
  }

  lemma TwoGrow(g: Page, s: Layout, t: seq<bv8>, u: seq<bv8>)
    requires Chunked(t, 0) && Chunked(u, 0)
    ensures var s1 := EmitRun(g, s, t, s.pen.invert); s1.pen.y >= s.pen.y && EmitRun(g, s1, u, s1.pen.invert).pen.y >= s.pen.y
  {
    hide EmitRun;
    RunGrows(g, s, t, s.pen.invert);
    var s1 := EmitRun(g, s, t, s.pen.invert);
    RunGrows(g, s1, u, s1.pen.invert);
  }

  lemma StepGrows(g: Page, s: Layout, cb: Callback)
    requires WellFormed(cb)
    ensures Step(g, s, cb).pen.y >= s.pen.y
  {
    hide Styled, EmitRun, DividerFrom, OnField, TableFlush, Natural, RowHeight, RuleWidth;
    match cb
    case Text(t, style) =>
      StyledY(g, s, t, style);
      RunGrows(g, Styled(g, s, t, style), t, Styled(g, s, t, style).pen.invert);
    case LinkTo(caption, _, style) => RunGrows(g, ToMargin(Deepened(s, style.depth)), caption, s.pen.invert);
    case Divider(ch, style) => DividerStays(g, ToMargin(Deepened(s, style.depth)), Indent(Deepened(s, style.depth)), DividerBytes(ch));
    case FieldOf(f, style) => FieldGrows(g, s, f, style);
    case LineEnd(style) =>
    case Table(rows, widths, style) => FlushGrows(g, Deepened(s, style.depth), rows, widths);
    case Image(alt, url, style) => TwoGrow(g, Deepened(s, style.depth), Ascii([0x5B, 0x69, 0x6D, 0x67, 0x5D, 0x20]), if alt != [] then alt else url);
    case Partial(url, style) =>
      var s1 := Deepened(s, style.depth);
      var tag := Ascii([0x5B, 0x2B, 0x5D, 0x20]);
      RunGrows(g, s1, tag, s1.pen.invert);
      var s2 := EmitRun(g, s1, tag, s1.pen.invert);
      RunGrows(g, ToMargin(Deepened(s2, style.depth)), url, s2.pen.invert);
    case Blank =>
  }

  // ---- Whole pages ----------------------------------------------------

  lemma {:induction false} PageGrows(g: Page, s: Layout, cbs: seq<Callback>)
    requires forall i :: 0 <= i < |cbs| ==> WellFormed(cbs[i])
    ensures Run(g, s, cbs).pen.y >= s.pen.y
    decreases |cbs|
  {
    hide Step, WellFormed;
    if cbs != [] {
      StepGrows(g, s, cbs[0]);
      PageGrows(g, Step(g, s, cbs[0]), cbs[1..]);
    }
  }

  lemma {:induction false} PageLag(g: Page, a: Layout, b: Layout, d: nat, cbs: seq<Callback>)
    requires Below(a, b, d) && (forall i :: 0 <= i < |cbs| ==> WellFormed(cbs[i])) && Run(In(g.cfg, PAST), a, cbs).pen.y <= PAST
    ensures Run(In(g.cfg, PAST), a, cbs).pen.y + d <= Run(g, b, cbs).pen.y
    decreases |cbs|
  {
    hide Step, WellFormed;
    if cbs != [] {
      var past := In(g.cfg, PAST);
      PageGrows(past, Step(past, a, cbs[0]), cbs[1..]);
      var e := StepLag(g, a, b, d, cbs[0]);
      PageLag(g, Step(past, a, cbs[0]), Step(g, b, cbs[0]), e, cbs[1..]);
    }
  }

  lemma {:induction false} RunSplit(g: Page, s: Layout, cbs: seq<Callback>, k: nat)
    requires (forall i :: 0 <= i < |cbs| ==> WellFormed(cbs[i])) && k <= |cbs|
    ensures Run(g, s, cbs) == Run(g, Run(g, s, cbs[..k]), cbs[k..])
    decreases k
  {
    hide Step, WellFormed;
    if k == 0 {
      assert cbs[0..] == cbs && cbs[..0] == [];
    } else {
      RunSplit(g, Step(g, s, cbs[0]), cbs[1..], k - 1);
      assert cbs[..k][1..] == cbs[1..][..k - 1] && cbs[1..][k - 1..] == cbs[k..];
    }
  }

  /** The first table with a wrapping cell. */
  lemma {:induction false} FirstUnsafe(cfg: Config, s: Layout, cbs: seq<Callback>) returns (k: nat)
    requires (forall i :: 0 <= i < |cbs| ==> WellFormed(cbs[i])) && !SafeRun(cfg, s, cbs)
    ensures k < |cbs| && SafeRun(cfg, s, cbs[..k]) && !SafeStep(Run(Whole(cfg), s, cbs[..k]), cbs[k])
    decreases |cbs|
  {
    hide Step, WellFormed, SafeStep;
    if SafeStep(s, cbs[0]) {
      var next := Step(Whole(cfg), s, cbs[0]);
      k := FirstUnsafe(cfg, next, cbs[1..]);
      assert cbs[..k + 1][1..] == cbs[1..][..k] && cbs[1..][k] == cbs[k + 1];
      k := k + 1;
    } else {
      k := 0;
      assert cbs[..0] == [];
    }
  }

  /** On a page of at most 65535 rows, one that is not safe is taller in the frame that begins with its first
      wrapping line than in the one beyond its end. */
  lemma UnsafePageDiffers(cfg: Config, pen: Pen, cbs: seq<Callback>) returns (scroll: U16)
    requires (forall i :: 0 <= i < |cbs| ==> WellFormed(cbs[i])) && !SafeRun(cfg, Layout(pen, []), cbs)
    requires Run(In(cfg, PAST), Layout(pen, []), cbs).pen.y <= PAST
    ensures Run(In(cfg, PAST), Layout(pen, []), cbs).pen.y < Run(In(cfg, scroll), Layout(pen, []), cbs).pen.y
  {
    var s := Layout(pen, []);
    forall scroll: U16
      ensures Sim(Whole(cfg), scroll, s, s)
    {
      StartSim(Whole(cfg), scroll, pen);
    }
    hide Run, SafeRun, WellFormed, TableFlush, TableSafe, SimLog, Natural;
    var k := FirstUnsafe(cfg, s, cbs);
    var page, past := Run(Whole(cfg), s, cbs[..k]), Run(In(cfg, PAST), s, cbs[..k]);
    RunSplit(In(cfg, PAST), s, cbs, k);
    ScrollSim(cfg, PAST, s, s, cbs[..k]);
    scroll := UnsafeStepDiffers(cfg, page, past, cbs[k], cbs[k + 1..], cbs[k..]);
    RunSplit(In(cfg, scroll), s, cbs, k);
    ScrollSim(cfg, scroll, s, s, cbs[..k]);
    UnsafeRestDiffers(cfg, scroll, page, past, Run(In(cfg, scroll), s, cbs[..k]), cbs[k], cbs[k + 1..], cbs[k..]);
  }

  lemma UnsafeStepDiffers(cfg: Config, page: Layout, past: Layout, cb: Callback, rest: seq<Callback>, all: seq<Callback>) returns (scroll: U16)
    requires past.pen == page.pen && WellFormed(cb) && (forall i :: 0 <= i < |all| ==> WellFormed(all[i])) && !SafeStep(page, cb) && all == [cb] + rest
    requires Run(In(cfg, PAST), past, all).pen.y <= PAST
    ensures Step(In(cfg, PAST), page, cb).pen.y < Step(In(cfg, scroll), page, cb).pen.y
  {
    hide TableFlush, TableSafe, Natural;
    var s := Deepened(page, cb.style.depth);
    assert all[1..] == rest;
    assert forall i :: 0 <= i < |rest| ==> rest[i] == all[i + 1];
    FlushPenOnly(In(cfg, PAST), s, Deepened(past, cb.style.depth), cb.rows, cb.widths);
    PageGrows(In(cfg, PAST), Step(In(cfg, PAST), past, cb), rest);
    scroll := UnsafeShows(cfg, s, cb.rows, cb.widths);
  }

  lemma UnsafeRestDiffers(cfg: Config, scroll: U16, page: Layout, past: Layout, frame: Layout, cb: Callback, rest: seq<Callback>, all: seq<Callback>)
    requires past.pen == page.pen == frame.pen && (forall i :: 0 <= i < |all| ==> WellFormed(all[i])) && all == [cb] + rest && WellFormed(cb) && cb.Table?
    requires Step(In(cfg, PAST), page, cb).pen.y < Step(In(cfg, scroll), page, cb).pen.y
    requires Run(In(cfg, PAST), past, all).pen.y <= PAST
    ensures Run(In(cfg, PAST), past, all).pen.y < Run(In(cfg, scroll), frame, all).pen.y
  {
    hide TableFlush, Natural;
    var depth := cb.style.depth;
    assert all[1..] == rest;
    assert forall i :: 0 <= i < |rest| ==> rest[i] == all[i + 1];
    FlushPenOnly(In(cfg, PAST), Deepened(page, depth), Deepened(past, depth), cb.rows, cb.widths);
    FlushPenOnly(In(cfg, scroll), Deepened(page, depth), Deepened(frame, depth), cb.rows, cb.widths);
    var a, b := Step(In(cfg, PAST), past, cb), Step(In(cfg, scroll), frame, cb);
    PageGrows(In(cfg, PAST), a, rest);
    var e := FlushLag(In(cfg, scroll), Deepened(past, depth), Deepened(frame, depth), 0, cb.rows, cb.widths);
    PageLag(In(cfg, scroll), a, b, e, rest);
  }

  /** For every callback sequence whose page fits sixteen bits: any two frames, at any two scroll offsets, end
      with the same pen exactly when no table has a cell that wraps. */
  lemma FramesAlikeIff(cfg: Config, pen: Pen, cbs: seq<Callback>)
    requires (forall i :: 0 <= i < |cbs| ==> WellFormed(cbs[i])) && Run(In(cfg, PAST), Layout(pen, []), cbs).pen.y <= PAST
    ensures (forall a: U16, b: U16 :: Run(In(cfg, a), Layout(pen, []), cbs).pen == Run(In(cfg, b), Layout(pen, []), cbs).pen)
        <==> SafeRun(cfg, Layout(pen, []), cbs)
  {
    hide Run, SafeRun, WellFormed;
    if SafeRun(cfg, Layout(pen, []), cbs) {
      forall a: U16, b: U16
        ensures Run(In(cfg, a), Layout(pen, []), cbs).pen == Run(In(cfg, b), Layout(pen, []), cbs).pen
      {
        ScrollingNeverChangesLayout(cfg, a, b, pen, cbs);
      }
    } else {
      var scroll := UnsafePageDiffers(cfg, pen, cbs);
    }
  }
}
