// Which face a run is drawn in, and what is laid behind and under it.
module LayoutFaces {
  import opened Geometry
  import opened Utf8
  import opened Chunks
  import opened Arith
  import opened LayoutTypes
  import opened LayoutSpec
  import opened LayoutWalk
  import opened LayoutText
  import opened LayoutPlaced

  // ---- Faces ----------------------------------------------------------

  /** The face of a character: the heading's, whole line or not at all; otherwise bold where asked for and carried. */
  function FaceFor(cfg: Config, head: nat, bold: bool, bytes: seq<bv8>): Face {
    if head == 1 then Big else if head == 2 then BoldH2 else if head == 3 then BoldH3
    else if bold && cfg.has(BoldInline, NextCp(bytes, 0).0) then BoldInline
    else Body
  }

  predicate FacedDraw(cfg: Config, head: nat, bold: bool, d: Draw) {
    d.shape.Glyph? ==> d.shape.face == FaceFor(cfg, head, bold, d.shape.bytes)
  }

  /** b adds to a only glyphs of those faces. */
  predicate Faced(cfg: Config, head: nat, bold: bool, a: seq<Draw>, b: seq<Draw>) {
    a <= b && forall i :: |a| <= i < |b| ==> FacedDraw(cfg, head, bold, b[i])
  }

  lemma FacedOn(cfg: Config, head: nat, bold: bool, a: seq<Draw>, b: seq<Draw>, c: seq<Draw>)
    requires Faced(cfg, head, bold, a, b) && Faced(cfg, head, bold, b, c)
    ensures Faced(cfg, head, bold, a, c)
  {
    hide FacedDraw;
    assert forall i :: 0 <= i < |b| ==> c[i] == b[i];
  }

  lemma FaceIs(g: Page, s: Layout, bytes: seq<bv8>)
    ensures FaceOf(g, s, bytes) == FaceFor(g.cfg, s.pen.head, s.pen.bold, bytes)
  {
  }

  lemma PutFaced(g: Page, s: Layout, when: bool, shape: Shape, head: nat, bold: bool)
    requires shape.Glyph? ==> shape.face == FaceFor(g.cfg, head, bold, shape.bytes)
    ensures Faced(g.cfg, head, bold, s.log, Put(g, s, shape).log) && Faced(g.cfg, head, bold, s.log, PutIf(g, s, when, shape).log)
    ensures Put(g, s, shape).pen == s.pen
  {
    hide FaceFor, Seen, ScreenY;
  }

  lemma GlyphFaced(g: Page, s: Layout, bytes: seq<bv8>, invert: bool)
    ensures Faced(g.cfg, s.pen.head, s.pen.bold, s.log, PutGlyph(g, s, bytes, invert).log)
  {
    hide FaceOf, FaceFor, Put, Faced;
    FaceIs(g, s, bytes);
    PutFaced(g, s, true, Glyph(FaceOf(g, s, bytes), s.pen.x, bytes, !invert), s.pen.head, s.pen.bold);
  }

  lemma PaintFaced(g: Page, s: Layout, x: int, w: int, luma: nat)
    ensures Faced(g.cfg, s.pen.head, s.pen.bold, s.log, PaintBg(g, s, x, w, luma).log) && PaintBg(g, s, x, w, luma).pen == s.pen
  {
    hide FaceFor, Put, Faced;
    PutFaced(g, s, true, Texture(x, w, RowHeight(g, s), luma), s.pen.head, s.pen.bold);
    PutFaced(g, s, luma < 128, Fill(x, w, RowHeight(g, s), true), s.pen.head, s.pen.bold);
  }

  lemma GroundFaced(g: Page, s: Layout, blank: bool, invert: bool)
    ensures Faced(g.cfg, s.pen.head, s.pen.bold, s.log, Ground(g, s, blank, invert).log) && Ground(g, s, blank, invert).pen == s.pen
  {
    hide Put, Faced, PaintBg, FaceFor;
    PaintFaced(g, s, s.pen.x, Pace(s), s.pen.bgLuma);
    PutFaced(g, s, true, Fill(s.pen.x, Pace(s), RowHeight(g, s), invert), s.pen.head, s.pen.bold);
    PutFaced(g, s, invert, Fill(s.pen.x, Pace(s), RowHeight(g, s), true), s.pen.head, s.pen.bold);
  }

  lemma CellFaced(g: Page, s: Layout, bytes: seq<bv8>, invert: bool)
    ensures Faced(g.cfg, s.pen.head, s.pen.bold, s.log, CellOf(g, s, bytes, invert).log)
  {
    hide Put, PutIf, PutGlyph, Faced, PaintBg, Pace, RowHeight;
    var blank := |bytes| == 1 && Blankish(bytes[0]);
    var (head, bold) := (s.pen.head, s.pen.bold);
    var s1 := Ground(g, s, blank, invert);
    var s2 := if blank then s1 else PutGlyph(g, s1, bytes, invert);
    var rule := Rule(s.pen.x, RowHeight(g, s) - 2, Pace(s), !invert);
    GroundFaced(g, s, blank, invert);
    GlyphFaced(g, s1, bytes, invert);
    if !blank {
      FacedOn(g.cfg, head, bold, s.log, s1.log, s2.log);
    }
    PutFaced(g, s2, s.pen.underline, rule, head, bold);
    FacedOn(g.cfg, head, bold, s.log, s2.log, PutIf(g, s2, s.pen.underline, rule).log);
  }

  lemma {:induction false} WordFaced(g: Page, s: Layout, t: seq<bv8>, k: nat, e: nat, invert: bool)
    requires e <= |t|
    ensures Faced(g.cfg, s.pen.head, s.pen.bold, s.log, Word(g, s, t, k, e, invert).log)
    decreases e - k
  {
    hide Faced, CellOf, Pace, ChunkAt, Moved;
    if k < e {
      var m := CellStep(g, s, ChunkAt(t, k), invert);
      CellFaced(g, s, ChunkAt(t, k), invert);
      MovedLog(CellOf(g, s, ChunkAt(t, k), invert), Pace(s));
      WordFaced(g, m, t, k + SeqLen(t[k]), e, invert);
      FacedOn(g.cfg, s.pen.head, s.pen.bold, s.log, m.log, Word(g, m, t, k + SeqLen(t[k]), e, invert).log);
    } else {
      FacedSelf(g.cfg, s.pen.head, s.pen.bold, s.log);
    }
  }

  lemma FacedSelf(cfg: Config, head: nat, bold: bool, log: seq<Draw>)
    ensures Faced(cfg, head, bold, log, log)
  {
  }

  lemma {:induction false} LongFaced(g: Page, s: Layout, t: seq<bv8>, k: nat, e: nat, invert: bool)
    requires e <= |t|
    ensures Faced(g.cfg, s.pen.head, s.pen.bold, s.log, LongWord(g, s, t, k, e, invert).log)
    decreases e - k
  {
    hide Faced, PutGlyph, Pace, ChunkAt, Moved, WrapIfNeeded;
    if k < e {
      var s1 := WrapIfNeeded(g, s, Pace(s));
      WrapPen(g, s, Pace(s));
      WrapLog(g, s, Pace(s));
      var c := PutGlyph(g, s1, ChunkAt(t, k), invert);
      GlyphFaced(g, s1, ChunkAt(t, k), invert);
      CellStays(g, s1, ChunkAt(t, k), invert);
      MovedLog(c, Pace(s1));
      MovedPen(c, Pace(s1));
      var m := Moved(c, Pace(s1));
      LongFaced(g, m, t, k + SeqLen(t[k]), e, invert);
      FacedOn(g.cfg, s.pen.head, s.pen.bold, s.log, m.log, LongWord(g, m, t, k + SeqLen(t[k]), e, invert).log);
    } else {
      FacedSelf(g.cfg, s.pen.head, s.pen.bold, s.log);
    }
  }

  lemma WrapLog(g: Page, s: Layout, w: nat)
    ensures WrapIfNeeded(g, s, w).log == s.log
  {
  }

  lemma LeadFaced(g: Page, s: Layout, leadW: nat, invert: bool)
    ensures Faced(g.cfg, s.pen.head, s.pen.bold, s.log, Lead(g, s, leadW, invert).log)
  {
    hide Seen, ScreenY, FaceFor;
  }

  lemma TokenFaced(g: Page, s: Layout, t: seq<bv8>, i: nat, sp: nat, e: nat, invert: bool)
    requires i <= sp <= e <= |t|
    ensures Faced(g.cfg, s.pen.head, s.pen.bold, s.log, Token(g, s, t, i, sp, e, invert).log)
  {
    hide Faced, Word, LongWord, Lead, Pace, ChunkCount, RowHeight, Indent;
    var leadW := LeadWidth(s, i, sp);
    var n, l := Newline(g, s), Lead(g, s, leadW, invert);
    LongFaced(g, s, t, i, e, invert);
    LeadFaced(g, s, leadW, invert);
    LeadWalks(g, s, leadW, invert);
    WordFaced(g, n, t, sp, e, invert);
    WordFaced(g, l, t, sp, e, invert);
    WordFaced(g, s, t, sp, e, invert);
    FacedOn(g.cfg, s.pen.head, s.pen.bold, s.log, l.log, Word(g, l, t, sp, e, invert).log);
  }

  lemma {:induction false} ProseFaced(g: Page, s: Layout, t: seq<bv8>, i: nat, invert: bool)
    requires Chunked(t, i)
    ensures Faced(g.cfg, s.pen.head, s.pen.bold, s.log, Tokens(g, s, t, i, invert).log)
    decreases |t| - i
  {
    hide Faced, Token;
    if i < |t| {
      TokenReach(t, i);
      var sp := SkipBlankish(t, i);
      var e := WordEnd(t, sp);
      var b := Token(g, s, t, i, sp, e, invert);
      TokenFaced(g, s, t, i, sp, e, invert);
      TokenKeeps(g, s, t, i, sp, e, invert);
      ProseFaced(g, b, t, e, invert);
      FacedOn(g.cfg, s.pen.head, s.pen.bold, s.log, b.log, Tokens(g, b, t, e, invert).log);
    } else {
      FacedSelf(g.cfg, s.pen.head, s.pen.bold, s.log);
    }
  }

  lemma TokenKeeps(g: Page, s: Layout, t: seq<bv8>, i: nat, sp: nat, e: nat, invert: bool)
    requires i <= sp <= e <= |t| && forall j :: i <= j < sp ==> Blankish(t[j])
    ensures var b := Token(g, s, t, i, sp, e, invert); b.pen.head == s.pen.head && b.pen.bold == s.pen.bold
  {
    hide Token, TokenWalk;
    TokenWalks(g, s, t, i, sp, e, invert);
  }

  lemma {:induction false} LiteralFaced(g: Page, s: Layout, t: seq<bv8>, k: nat, invert: bool)
    ensures Faced(g.cfg, 0, false, s.log, LiteralFrom(g, s, t, k, invert).log)
    decreases |t| - k
  {
    hide Faced, LiteralCellOf, ChunkAt, Clipped;
    if k < |t| {
      if s.pen.x + FONT_ADVANCE > RIGHT {
        ClippedFaced(g, s, invert);
      } else {
        var c := LiteralCellOf(g, s, ChunkAt(t, k), invert);
        LiteralCellFaced(g, s, ChunkAt(t, k), invert);
        LiteralFaced(g, c, t, k + SeqLen(t[k]), invert);
        FacedOn(g.cfg, 0, false, s.log, c.log, LiteralFrom(g, c, t, k + SeqLen(t[k]), invert).log);
      }
    } else {
      FacedSelf(g.cfg, 0, false, s.log);
    }
  }

  lemma ClippedFaced(g: Page, s: Layout, invert: bool)
    ensures Faced(g.cfg, 0, false, s.log, Clipped(g, s, invert).log)
  {
    hide FaceFor;
  }

  lemma LiteralCellFaced(g: Page, s: Layout, bytes: seq<bv8>, invert: bool)
    ensures Faced(g.cfg, 0, false, s.log, LiteralCellOf(g, s, bytes, invert).log)
  {
    hide Seen, ScreenY;
  }

  /** The ladder: a heading whose every character the depth's face carries takes that face for all of them and a row of
      its height; any other run keeps the face the row has, or is body text, bold where it asks for it. Preformatted
      text is always body text. */
  lemma TextFaces(g: Page, s: Layout, t: seq<bv8>, style: Style)
    requires Chunked(t, 0)
    ensures var b := OnText(g, s, t, style);
      var head := if TakesHead(g, s.pen.rowOpen, t, style) then (if style.depth <= 1 then 1 else if style.depth == 2 then 2 else 3) else s.pen.head;
      && Faced(g.cfg, if style.literal then 0 else head, !style.literal && style.bold && head == 0, s.log, b.log)
      && b.pen.head == head && Pace(b) == (if head == 1 then 12 else if head == 2 then 8 else if head == 3 then 7 else 6)
      && (TakesHead(g, s.pen.rowOpen, t, style) ==> b.pen.rowH == g.cfg.leading + (if style.depth <= 1 then 26 else if style.depth == 2 then 16 else 13))
  {
    hide Faced, Tokens, LiteralFrom, TakesHead, HasBg, Luma, AlignedX;
    var s1 := Styled(g, s, t, style);
    StyledHead(g, s, t, style);
    LiteralFaced(g, ToMargin(s1), t, 0, s1.pen.invert);
    ProseFaced(g, PullBack(s1), t, 0, s1.pen.invert);
    hide RunWalk, EmitRun;
    RunWalks(g, s1, t, s1.pen.invert);
    EmitIs(g, s1, t, s1.pen.invert);
  }

  lemma EmitIs(g: Page, s: Layout, t: seq<bv8>, invert: bool)
    requires Chunked(t, 0)
    ensures EmitRun(g, s, t, invert) == if s.pen.literal then LiteralFrom(g, ToMargin(s), t, 0, invert) else Tokens(g, PullBack(s), t, 0, invert)
    ensures ToMargin(s).log == s.log == PullBack(s).log
    ensures PullBack(s).pen.head == s.pen.head && PullBack(s).pen.bold == s.pen.bold
  {
  }

  lemma HeadedIs(g: Page, s: Layout, t: seq<bv8>, style: Style)
    ensures var b := Headed(g, s, t, style); var takes := TakesHead(g, s.pen.rowOpen, t, style);
      && b.log == s.log && b.pen.literal == s.pen.literal
      && b.pen.head == (if takes then (if style.depth <= 1 then 1 else if style.depth == 2 then 2 else 3) else s.pen.head)
      && (takes ==> b.pen.rowH == g.cfg.leading + (if style.depth <= 1 then 26 else if style.depth == 2 then 16 else 13))
  {
    hide TakesHead;
  }

  lemma StyledHead(g: Page, s: Layout, t: seq<bv8>, style: Style)
    ensures var b := Styled(g, s, t, style); var takes := TakesHead(g, s.pen.rowOpen, t, style);
      && b.log == s.log && b.pen.literal == style.literal && b.pen.bold == (style.bold && b.pen.head == 0)
      && b.pen.head == (if takes then (if style.depth <= 1 then 1 else if style.depth == 2 then 2 else 3) else s.pen.head)
      && (takes ==> b.pen.rowH == g.cfg.leading + (if style.depth <= 1 then 26 else if style.depth == 2 then 16 else 13))
  {
    hide TakesHead, HasBg, Luma, AlignedX, Indent, Headed;
    var s1 := ToMargin(s.(pen := s.pen.(depth := style.depth, blankPending := false, literal := style.literal)));
    var s2 := Aligned(s1, t, style.align);
    HeadedIs(g, s2.(pen := s2.pen.(hasBg := HasBg(style.bg), bgLuma := Luma(style.bg))), t, style);
  }

  // ---- Which headings take their face ---------------------------------

  predicate Carried(g: Page, face: Face, cps: seq<bv32>) {
    forall i :: 0 <= i < |cps| ==> CarriesOne(g, face, cps[i])
  }

  predicate CarriesOne(g: Page, face: Face, cp: bv32) {
    g.cfg.has(face, if cp < 0x1_0000 then cp else 0xFFFF)
  }

  lemma {:induction false} AllInText(g: Page, face: Face, s: seq<bv8>, p: nat, cps: seq<bv32>)
    requires (forall i :: 0 <= i < |cps| ==> Scalar(cps[i])) && p <= |s| && s[p..] == Utf8.Text(cps)
    ensures AllIn(g, face, s, p) <==> Carried(g, face, cps)
    decreases |cps|
  {
    hide SeqLen, InlineCp, Encode;
    if cps != [] {
      var q := TextStep(s, p, cps);
      Prefixed(s, p, Encode(cps[0]), Utf8.Text(cps[1..]));
      NextCpInverts(s, p, cps[0]);
      AllInText(g, face, s, q, cps[1..]);
      CarriedCons(g, face, cps);
      AllInStep(g, face, s, p);
    }
  }

  lemma AllInStep(g: Page, face: Face, t: seq<bv8>, k: nat)
    requires k < |t|
    ensures AllIn(g, face, t, k) <==> g.cfg.has(face, InlineCp(t, k)) && AllIn(g, face, t, k + SeqLen(t[k]))
  {
    hide SeqLen, InlineCp;
  }

  lemma CarriedCons(g: Page, face: Face, cps: seq<bv32>)
    requires cps != []
    ensures Carried(g, face, cps) <==> CarriesOne(g, face, cps[0]) && Carried(g, face, cps[1..])
  {
    hide CarriesOne;
    assert cps == [cps[0]] + cps[1..];
  }

  lemma NonEmptyText(cps: seq<bv32>)
    requires forall i :: 0 <= i < |cps| ==> Scalar(cps[i])
    ensures |Utf8.Text(cps)| > 0 <==> cps != []
  {
  }

  lemma LadderIs(depth: nat)
    ensures HeadFace(HeadWanted(depth)) == LadderFace(depth)
  {
  }

  /** A heading that starts a row takes its face exactly when the face carries every character of it; one past U+FFFF is
      looked up as U+FFFF. */
  lemma TakesHeadIff(g: Page, rowOpen: bool, cps: seq<bv32>, style: Style)
    requires forall i :: 0 <= i < |cps| ==> Scalar(cps[i])
    ensures TakesHead(g, rowOpen, Utf8.Text(cps), style)
       <==> g.cfg.head2x && style.heading && !rowOpen && cps != [] && Carried(g, LadderFace(style.depth), cps)
  {
    hide AllIn, Carried, Utf8.Text, LadderFace, Encode, SeqLen;
    var t := Utf8.Text(cps);
    assert t[0..] == t;
    LadderIs(style.depth);
    AllInText(g, LadderFace(style.depth), t, 0, cps);
    NonEmptyText(cps);
  }

  // ---- Rules and grounds ----------------------------------------------

  /** Stretches of a row laid end to end. */
  predicate IsRule(d: Draw, black: bool) {
    d.shape.Rule? && d.shape.dy == d.h - 2 && d.shape.black == black
  }

  predicate IsGround(d: Draw, luma: nat) {
    (d.shape.Fill? || (d.shape.Texture? && d.shape.level == luma)) && d.shape.h == d.h
  }

  /** Where an underline of the draws from n on, begun at column x, has got to without a gap; none once there is one. */
  function Underlined(log: seq<Draw>, n: nat, x: int, black: bool): (end: Column)
    decreases |log|
  {
    if |log| <= n then At(x)
    else
      var (before, d) := (Underlined(log[..|log| - 1], n, x, black), log[|log| - 1]);
      if !d.shape.Rule? then before
      else if IsRule(d, black) && before == At(d.shape.x) then At(d.shape.x + d.shape.w)
      else Gap
  }

  /** The same of the background. */
  function Grounded(log: seq<Draw>, n: nat, x: int, luma: nat): (end: Column)
    decreases |log|
  {
    if |log| <= n then At(x)
    else
      var (before, d) := (Grounded(log[..|log| - 1], n, x, luma), log[|log| - 1]);
      if !d.shape.Fill? && !d.shape.Texture? then before
      else if IsGround(d, luma) && before == At(d.shape.x) then At(d.shape.x + d.shape.w)
      else Gap
  }

  datatype Column = At(x: int) | Gap

  lemma UnderlinedSnoc(log: seq<Draw>, d: Draw, n: nat, x: int, black: bool)
    requires n <= |log|
    ensures Underlined(log + [d], n, x, black)
         == if !d.shape.Rule? then Underlined(log, n, x, black)
            else if IsRule(d, black) && Underlined(log, n, x, black) == At(d.shape.x) then At(d.shape.x + d.shape.w)
            else Gap
  {
    assert (log + [d])[..|log|] == log;
  }

  lemma GroundedSnoc(log: seq<Draw>, d: Draw, n: nat, x: int, luma: nat)
    requires n <= |log|
    ensures Grounded(log + [d], n, x, luma)
         == if !d.shape.Fill? && !d.shape.Texture? then Grounded(log, n, x, luma)
            else if IsGround(d, luma) && Grounded(log, n, x, luma) == At(d.shape.x) then At(d.shape.x + d.shape.w)
            else Gap
  {
    assert (log + [d])[..|log|] == log;
  }

  /** Up to a column there is an unbroken underline if there is to be one, and an unbroken ground on a background. */
  predicate Dressed(g: Page, s: Layout, log: seq<Draw>, n: nat, x: int, to: int, black: bool) {
    && n <= |log|
    && Underlined(log, n, x, black) == (if s.pen.underline then At(to) else At(x))
    && (s.pen.hasBg && (g.cfg.dither || s.pen.bgLuma < 128) ==> Grounded(log, n, x, s.pen.bgLuma) == At(to))
    && (!s.pen.hasBg && black ==> Grounded(log, n, x, s.pen.bgLuma) == At(x))
  }

  // One piece of a row, ground first, then perhaps a glyph, then the rule.
  lemma PieceDressed(g: Page, s: Layout, n: nat, x: int, w: nat, ground: seq<Shape>, glyph: seq<Shape>, black: bool)
    requires Seen(g.view, s.pen.y) && Dressed(g, s, s.log, n, x, s.pen.x, black)
    requires |ground| <= 1 && (ground != [] ==> (ground[0].Fill? || ground[0].Texture?) && ground[0].h == RowHeight(g, s) && ground[0].x == s.pen.x && ground[0].w == w)
    requires ground != [] && ground[0].Texture? ==> ground[0].level == s.pen.bgLuma
    requires |glyph| <= 1 && (glyph != [] ==> glyph[0].Glyph?)
    requires s.pen.hasBg && (g.cfg.dither || s.pen.bgLuma < 128) ==> ground != []
    requires !s.pen.hasBg && black ==> ground == []
    ensures var s1 := if ground == [] then s else Put(g, s, ground[0]);
      var s2 := if glyph == [] then s1 else Put(g, s1, glyph[0]);
      Dressed(g, s, PutIf(g, s2, s.pen.underline, Rule(s.pen.x, RowHeight(g, s) - 2, w, black)).log, n, x, s.pen.x + w, black)
  {
    hide Underlined, Grounded, Seen, ScreenY, RowHeight;
    var row, h := ScreenY(g.view, s.pen.y), RowHeight(g, s);
    var s1 := if ground == [] then s else Put(g, s, ground[0]);
    if ground != [] {
      GroundedSnoc(s.log, Draw(row, h, ground[0]), n, x, s.pen.bgLuma);
      UnderlinedSnoc(s.log, Draw(row, h, ground[0]), n, x, black);
    }
    SameHeight(g, s, s1);
    var s2 := if glyph == [] then s1 else Put(g, s1, glyph[0]);
    if glyph != [] {
      GroundedSnoc(s1.log, Draw(row, h, glyph[0]), n, x, s.pen.bgLuma);
      UnderlinedSnoc(s1.log, Draw(row, h, glyph[0]), n, x, black);
    }
    SameHeight(g, s, s2);
    var rule := Draw(row, h, Rule(s.pen.x, RowHeight(g, s) - 2, w, black));
    GroundedSnoc(s2.log, rule, n, x, s.pen.bgLuma);
    UnderlinedSnoc(s2.log, rule, n, x, black);
  }

  lemma SameHeight(g: Page, a: Layout, b: Layout)
    ensures a.pen == b.pen ==> RowHeight(g, a) == RowHeight(g, b)
  {
  }

  lemma CellDressed(g: Page, s: Layout, n: nat, x: int, bytes: seq<bv8>, invert: bool)
    requires Seen(g.view, s.pen.y) && Dressed(g, s, s.log, n, x, s.pen.x, !invert)
    ensures Dressed(g, s, CellOf(g, s, bytes, invert).log, n, x, s.pen.x + Pace(s), !invert)
  {
    hide Dressed, Seen, ScreenY, RowHeight, Pace, FaceOf, Put;
    var blank := |bytes| == 1 && Blankish(bytes[0]);
    var h, p := RowHeight(g, s), Pace(s);
    var ground: seq<Shape> :=
      if s.pen.hasBg then
        if blank then
          if g.cfg.dither then [Texture(s.pen.x, p, h, s.pen.bgLuma)]
          else if s.pen.bgLuma < 128 then [Fill(s.pen.x, p, h, true)] else []
        else [Fill(s.pen.x, p, h, invert)]
      else if invert then [Fill(s.pen.x, p, h, true)] else [];
    var s1 := if ground == [] then s else Put(g, s, ground[0]);
    assert s1 == Ground(g, s, blank, invert);
    SameShape(g, s, s1, bytes);
    PutPen(g, s, ground);
    var glyph: seq<Shape> := if blank then [] else [Glyph(FaceOf(g, s1, bytes), s1.pen.x, bytes, !invert)];
    PieceDressed(g, s, n, x, p, ground, glyph, !invert);
  }

  lemma PutPen(g: Page, s: Layout, shapes: seq<Shape>)
    ensures shapes != [] ==> Put(g, s, shapes[0]).pen == s.pen
  {
  }

  lemma SameShape(g: Page, a: Layout, b: Layout, bytes: seq<bv8>)
    ensures a.pen == b.pen ==> FaceOf(g, a, bytes) == FaceOf(g, b, bytes) && Pace(a) == Pace(b) && RowHeight(g, a) == RowHeight(g, b)
  {
  }

  lemma LeadDressed(g: Page, s: Layout, n: nat, x: int, leadW: nat, invert: bool)
    requires Seen(g.view, s.pen.y) && Dressed(g, s, s.log, n, x, s.pen.x, !invert)
    ensures Dressed(g, s, Lead(g, s, leadW, invert).log, n, x, s.pen.x + leadW, !invert)
  {
    hide Dressed, Seen, ScreenY, RowHeight, Put;
    var h := RowHeight(g, s);
    var ground: seq<Shape> :=
      if s.pen.hasBg then
        if g.cfg.dither then [Texture(s.pen.x, leadW, h, s.pen.bgLuma)]
        else if s.pen.bgLuma < 128 then [Fill(s.pen.x, leadW, h, true)] else []
      else [];
    PutPen(g, s, ground);
    var s1 := if ground == [] then s else Put(g, s, ground[0]);
    SameHeight(g, s, s1);
    PieceDressed(g, s, n, x, leadW, ground, [], !invert);
  }

  lemma DressedSame(g: Page, a: Layout, b: Layout, n: nat, x: int, to: int, black: bool)
    requires a.pen.underline == b.pen.underline && a.pen.hasBg == b.pen.hasBg && a.pen.bgLuma == b.pen.bgLuma
    ensures Dressed(g, a, b.log, n, x, to, black) == Dressed(g, b, b.log, n, x, to, black)
  {
  }

  lemma {:induction false} WordDressed(g: Page, s: Layout, n: nat, x: int, t: seq<bv8>, k: nat, e: nat, invert: bool)
    requires Seen(g.view, s.pen.y) && Dressed(g, s, s.log, n, x, s.pen.x, !invert)
    requires e <= |t| && s.pen.x + ChunkCount(t, k, e) * Pace(s) <= 0xFFFF
    ensures var b := Word(g, s, t, k, e, invert); Dressed(g, b, b.log, n, x, b.pen.x, !invert)
    decreases e - k
  {
    hide CellOf, Pace, SeqLen, Moved, Seen, ScreenY, ChunkAt, Dressed;
    if k < e {
      var c := CellOf(g, s, ChunkAt(t, k), invert);
      var m := CellStep(g, s, ChunkAt(t, k), invert);
      CountTimes(t, k, e, Pace(s));
      CellDressed(g, s, n, x, ChunkAt(t, k), invert);
      MovedLog(c, Pace(s));
      DressedSame(g, s, m, n, x, m.pen.x, !invert);
      WordDressed(g, m, n, x, t, k + SeqLen(t[k]), e, invert);
    }
  }

  lemma TokenDressed(g: Page, s: Layout, n: nat, x: int, t: seq<bv8>, i: nat, sp: nat, e: nat, invert: bool)
    requires i <= sp <= e <= |t| && (forall j :: i <= j < sp ==> Blankish(t[j]))
    requires Seen(g.view, s.pen.y) && Indent(s) <= s.pen.x && s.pen.x + ChunkCount(t, i, e) * Pace(s) <= 398
    requires Dressed(g, s, s.log, n, x, s.pen.x, !invert)
    ensures var b := Token(g, s, t, i, sp, e, invert); Dressed(g, b, b.log, n, x, b.pen.x, !invert)
  {
    hide Pace, Word, LongWord, Lead, Seen, ScreenY, ChunkCount, Dressed, Indent;
    BlanksCount(t, i, sp, e);
    Distributes(sp - i, ChunkCount(t, sp, e), Pace(s));
    WordFits(s, t, sp, e);
    var w := (sp - i) * Pace(s);
    var s1 := if w != 0 then Lead(g, s, w, invert) else s;
    LeadWalks(g, s, w, invert);
    LeadDressed(g, s, n, x, w, invert);
    SamePace(s, s1);
    DressedSame(g, s, s1, n, x, s1.pen.x, !invert);
    WordDressed(g, s1, n, x, t, sp, e, invert);
  }

  /** Prose that fits its row is underlined without a gap, two pixels above the row's end and in its own colour, and on
      a dithered or a dark background stands on ground of its shade without a gap; plain text in black has neither. */
  lemma {:induction false} ProseDressed(g: Page, s: Layout, n: nat, x: int, t: seq<bv8>, i: nat, invert: bool)
    requires Chunked(t, i) && Seen(g.view, s.pen.y) && Indent(s) <= s.pen.x && s.pen.x + ChunkCount(t, i, |t|) * Pace(s) <= 398
    requires Dressed(g, s, s.log, n, x, s.pen.x, !invert)
    ensures var b := Tokens(g, s, t, i, invert); Dressed(g, b, b.log, n, x, b.pen.x, !invert)
    decreases |t| - i
  {
    hide Pace, Token, Seen, ChunkCount, Indent, Dressed, Types;
    if i < |t| {
      TokenReach(t, i);
      var sp := SkipBlankish(t, i);
      var e := WordEnd(t, sp);
      BlanksReachEnd(t, i, sp);
      CountSplit(t, i, e, |t|);
      var p, first, more := Pace(s), ChunkCount(t, i, e), ChunkCount(t, e, |t|);
      Distributes(first, more, p);
      assert s.pen.x + first * p <= 398;
      TokenTypes(g, s, t, i, sp, e, invert);
      TokenDressed(g, s, n, x, t, i, sp, e, invert);
      var s1 := Token(g, s, t, i, sp, e, invert);
      TypesPen(g, s, s1, t, i, e, invert);
      ProseDressed(g, s1, n, x, t, e, invert);
    }
  }

  lemma DressedStart(g: Page, s: Layout, black: bool)
    ensures Dressed(g, s, s.log, |s.log|, s.pen.x, s.pen.x, black)
  {
  }

  /** The same of the text of a callback that starts a row. */
  lemma TextDressed(g: Page, s: Layout, t: seq<bv8>, style: Style)
    requires Chunked(t, 0) && !s.pen.rowOpen && Seen(g.view, s.pen.y) && !style.literal && !TakesHead(g, false, t, style)
    requires RunWidth(s, t) <= 398 - LeftEdge(style.depth)
    ensures var b := OnText(g, s, t, style); var (n, x, black) := (|s.log|, b.pen.x - RunWidth(s, t), !DarkBg(style));
      && Underlined(b.log, n, x, black) == (if style.underline then At(b.pen.x) else At(x))
      && (HasBg(style.bg) && (g.cfg.dither || DarkBg(style)) ==> Grounded(b.log, n, x, Luma(style.bg)) == At(b.pen.x))
      && (!HasBg(style.bg) ==> Grounded(b.log, n, x, Luma(style.bg)) == At(x))
  {
    hide Seen, ScreenY, TakesHead, Pace, Cells, Styled, Tokens, LeftEdge, Indent, OnText, Placed, ChunkCount, HasBg, Luma;
    StyledClosed(g, s, t, style);
    StyledDress(g, s, t, style);
    CellsAreChunks(t);
    TextIsProse(g, s, t, style);
    var s1 := Styled(g, s, t, style);
    PlacedFits(style.align, s1.pen.x, LeftEdge(style.depth), RunWidth(s, t));
    DressedStart(g, s1, !s1.pen.invert);
    ProseDressed(g, s1, |s.log|, s1.pen.x, t, 0, s1.pen.invert);
    ProseTypes(g, s1, t, 0, s1.pen.invert);
    TypesDress(g, s1, Tokens(g, s1, t, 0, s1.pen.invert), t, s1.pen.invert);
  }

  lemma TypesDress(g: Page, a: Layout, b: Layout, t: seq<bv8>, invert: bool)
    requires Types(g, a, b, t, 0, |t|, invert)
    ensures b.pen.underline == a.pen.underline && b.pen.hasBg == a.pen.hasBg && b.pen.bgLuma == a.pen.bgLuma && b.pen.x == a.pen.x + ChunkCount(t, 0, |t|) * Pace(a)
  {
  }

  lemma StyledDress(g: Page, s: Layout, t: seq<bv8>, style: Style)
    ensures var b := Styled(g, s, t, style); b.pen.underline == style.underline && b.pen.hasBg == HasBg(style.bg) && b.pen.bgLuma == Luma(style.bg)
  {
    hide TakesHead, HasBg, Luma, AlignedX, Indent;
  }
  // ---- Cells knocked out ----------------------------------------------

  /** The character has its cell to itself: just before it the cell was filled with the other colour. */
  predicate KnockedOut(log: seq<Draw>, n: nat, i: nat)
    requires i < |log| && log[i].shape.Glyph?
  {
    i > n && var d := log[i].shape;
      log[i - 1] == Draw(log[i].row, log[i].h, Fill(d.x, FaceWidth(d.face), log[i].h, !d.black))
  }

  predicate AllKnockedOut(log: seq<Draw>, n: nat) {
    forall i :: n <= i < |log| && log[i].shape.Glyph? ==> KnockedOut(log, n, i)
  }

  /** b adds to a only such characters. */
  predicate Knocks(a: Layout, b: Layout) {
    a.log <= b.log && AllKnockedOut(b.log, |a.log|) && b.pen.hasBg == a.pen.hasBg
  }

  lemma KnocksOn(a: Layout, b: Layout, c: Layout)
    requires Knocks(a, b) && Knocks(b, c)
    ensures Knocks(a, c)
  {
    var n := |a.log|;
    forall i | n <= i < |c.log| && c.log[i].shape.Glyph?
      ensures KnockedOut(c.log, n, i)
    {
      if i < |b.log| {
        assert c.log[i] == b.log[i] && KnockedOut(b.log, n, i) && c.log[i - 1] == b.log[i - 1];
      } else {
        assert KnockedOut(c.log, |b.log|, i);
      }
    }
  }

  lemma PutKnocks(g: Page, s: Layout, when: bool, shape: Shape)
    requires !shape.Glyph?
    ensures Knocks(s, Put(g, s, shape)) && Knocks(s, PutIf(g, s, when, shape))
    ensures Put(g, s, shape).pen == s.pen
  {
  }

  lemma KnocksSelf(a: Layout, b: Layout)
    requires a.log == b.log && a.pen.hasBg == b.pen.hasBg
    ensures Knocks(a, b)
  {
  }

  lemma PairKnocks(g: Page, s: Layout, bytes: seq<bv8>, invert: bool)
    requires s.pen.hasBg
    ensures Knocks(s, PutGlyph(g, Put(g, s, Fill(s.pen.x, Pace(s), RowHeight(g, s), invert)), bytes, invert))
  {
    hide Seen, ScreenY, FaceOf, Pace, RowHeight;
    var s1 := Put(g, s, Fill(s.pen.x, Pace(s), RowHeight(g, s), invert));
    SameShape(g, s, s1, bytes);
    FaceKeepsPace(g, s, bytes);
    var b := PutGlyph(g, s1, bytes, invert);
    if Seen(g.view, s.pen.y) {
      var n := |s.log|;
      assert |b.log| == n + 2 && KnockedOut(b.log, n, n + 1);
    }
  }

  lemma CellKnocks(g: Page, s: Layout, bytes: seq<bv8>, invert: bool)
    requires s.pen.hasBg
    ensures Knocks(s, CellOf(g, s, bytes, invert))
  {
    hide Knocks, Put, PutIf, PutGlyph, PaintBg, Pace, RowHeight;
    var blank := |bytes| == 1 && Blankish(bytes[0]);
    var s1 := Ground(g, s, blank, invert);
    var s2 := if blank then s1 else PutGlyph(g, s1, bytes, invert);
    var rule := Rule(s.pen.x, RowHeight(g, s) - 2, Pace(s), !invert);
    if blank {
      PaintKnocks(g, s, s.pen.x, Pace(s), s.pen.bgLuma);
    } else {
      PairKnocks(g, s, bytes, invert);
    }
    PutKnocks(g, s2, s.pen.underline, rule);
    KnocksOn(s, s2, PutIf(g, s2, s.pen.underline, rule));
  }

  lemma PaintKnocks(g: Page, s: Layout, x: int, w: int, luma: nat)
    ensures Knocks(s, PaintBg(g, s, x, w, luma))
  {
    hide Knocks;
    PutKnocks(g, s, true, Texture(x, w, RowHeight(g, s), luma));
    PutKnocks(g, s, luma < 128, Fill(x, w, RowHeight(g, s), true));
  }

  lemma {:induction false} WordKnocks(g: Page, s: Layout, t: seq<bv8>, k: nat, e: nat, invert: bool)
    requires e <= |t| && s.pen.hasBg
    ensures Knocks(s, Word(g, s, t, k, e, invert))
    decreases e - k
  {
    hide Knocks, CellOf, Pace, ChunkAt;
    if k < e {
      var c := CellOf(g, s, ChunkAt(t, k), invert);
      var m := CellStep(g, s, ChunkAt(t, k), invert);
      CellKnocks(g, s, ChunkAt(t, k), invert);
      CellStays(g, s, ChunkAt(t, k), invert);
      KnocksSelf(c, m);
      KnocksOn(s, c, m);
      WordKnocks(g, m, t, k + SeqLen(t[k]), e, invert);
      KnocksOn(s, m, Word(g, m, t, k + SeqLen(t[k]), e, invert));
    } else {
      KnocksSelf(s, s);
    }
  }

  /** On a background every character of a token that is not broken at the margin is knocked out of it: white cells for
      black characters, black for white, so that the texture never runs through a letter. */
  lemma TokenKnocks(g: Page, s: Layout, t: seq<bv8>, i: nat, sp: nat, e: nat, invert: bool)
    requires i <= sp <= e <= |t| && s.pen.hasBg && WordWidth(s, t, sp, e) <= Usable(s)
    ensures Knocks(s, Token(g, s, t, i, sp, e, invert))
  {
    hide Knocks, Word, LongWord, Lead, Pace, ChunkCount, RowHeight, Indent;
    var leadW := LeadWidth(s, i, sp);
    var n, l := Newline(g, s), Lead(g, s, leadW, invert);
    KnocksSelf(s, n);
    WordKnocks(g, n, t, sp, e, invert);
    KnocksOn(s, n, Word(g, n, t, sp, e, invert));
    LeadKnocks(g, s, leadW, invert);
    WordKnocks(g, l, t, sp, e, invert);
    KnocksOn(s, l, Word(g, l, t, sp, e, invert));
    WordKnocks(g, s, t, sp, e, invert);
  }

  lemma LeadKnocks(g: Page, s: Layout, leadW: nat, invert: bool)
    requires s.pen.hasBg
    ensures Knocks(s, Lead(g, s, leadW, invert)) && Lead(g, s, leadW, invert).pen.hasBg
  {
    hide Knocks, PaintBg, Put, PutIf;
    var s1 := PaintBg(g, s, s.pen.x, leadW, s.pen.bgLuma);
    var rule := Rule(s.pen.x, RowHeight(g, s) - 2, leadW, !invert);
    PaintKnocks(g, s, s.pen.x, leadW, s.pen.bgLuma);
    PutKnocks(g, s1, s.pen.underline, rule);
    var s2 := PutIf(g, s1, s.pen.underline, rule);
    KnocksOn(s, s1, s2);
    LeadWalks(g, s, leadW, invert);
    PaintPen(g, s, leadW);
    PutIfPen(g, s1, s.pen.underline, rule);
    KnocksSelf(s2, Moved(s2, leadW));
    KnocksOn(s, s2, Moved(s2, leadW));
  }

  lemma PaintPen(g: Page, s: Layout, w: nat)
    ensures PaintBg(g, s, s.pen.x, w, s.pen.bgLuma).pen == s.pen
  {
  }

  lemma PutIfPen(g: Page, s: Layout, when: bool, shape: Shape)
    ensures PutIf(g, s, when, shape).pen == s.pen
  {
  }
}
