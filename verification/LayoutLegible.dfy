// White characters and the black they need behind them.
module LayoutLegible {
  import opened Geometry
  import opened Utf8
  import opened Chunks
  import Arith
  import opened TableFit
  import opened LayoutTypes
  import opened LayoutSpec
  import opened LayoutWalk
  import opened LayoutText
  import LayoutPlaced

  predicate White(d: Draw) {
    (d.shape.Glyph? && !d.shape.black) || (d.shape.Symbol? && !d.shape.black)
  }

  function Width(shape: Shape): nat {
    if shape.Glyph? then FaceWidth(shape.face) else 6
  }

  /** A black rectangle of the row under all of a character's cell. */
  predicate Under(d: Draw, c: Draw)
    requires White(c)
  {
    && d.shape.Fill? && d.shape.black && d.row == c.row
    && d.shape.x <= c.shape.x && c.shape.x + Width(c.shape) <= d.shape.x + d.shape.w
  }

  /** From draw n on, black was laid under character i, and only single characters came between. */
  predicate Backed(log: seq<Draw>, n: nat, i: nat)
    requires i < |log| && White(log[i])
  {
    exists j :: n <= j < i && Under(log[j], log[i]) && forall m :: j < m < i ==> log[m].shape.Symbol?
  }

  /** What is drawn from n on is legible: white characters stand on black drawn for them. */
  predicate Legible(log: seq<Draw>, n: nat) {
    forall i :: n <= i < |log| && White(log[i]) ==> Backed(log, n, i)
  }

  lemma BackedIn(a: seq<Draw>, b: seq<Draw>, n: nat, i: nat)
    requires a <= b && i < |a| && White(a[i])
    ensures Backed(a, n, i) <==> Backed(b, n, i)
  {
    assert forall m :: 0 <= m <= i ==> a[m] == b[m];
  }

  lemma BackedSooner(log: seq<Draw>, n: nat, m: nat, i: nat)
    requires n <= m && i < |log| && White(log[i]) && Backed(log, m, i)
    ensures Backed(log, n, i)
  {
  }

  lemma LegibleOn(a: seq<Draw>, b: seq<Draw>, n: nat)
    requires n <= |a| && a <= b && Legible(a, n) && Legible(b, |a|)
    ensures Legible(b, n)
  {
    hide Backed;
    forall i | n <= i < |b| && White(b[i])
      ensures Backed(b, n, i)
    {
      if i < |a| {
        BackedIn(a, b, n, i);
      } else {
        BackedSooner(b, n, |a|, i);
      }
    }
  }

  lemma IllegibleOn(a: seq<Draw>, b: seq<Draw>, n: nat)
    requires a <= b && !Legible(a, n)
    ensures !Legible(b, n)
  {
    hide Backed;
    var i :| n <= i < |a| && White(a[i]) && !Backed(a, n, i);
    BackedIn(a, b, n, i);
  }

  /** What comes after a is legible by itself: b adds nothing white, or stands under all of it. */
  predicate Adds(a: Layout, b: Layout) {
    a.log <= b.log && Legible(b.log, |a.log|)
  }

  lemma AddsOn(a: Layout, b: Layout, c: Layout)
    requires Adds(a, b) && Adds(b, c)
    ensures Adds(a, c)
  {
    hide Legible;
    LegibleOn(b.log, c.log, |a.log|);
  }

  lemma AddsSelf(a: Layout, b: Layout)
    requires a.log == b.log
    ensures Adds(a, b)
  {
  }

  // ---- Cells ----------------------------------------------------------

  lemma PutAddsNone(g: Page, s: Layout, when: bool, shape: Shape)
    requires !shape.Glyph? && !shape.Symbol?
    ensures Adds(s, Put(g, s, shape)) && Adds(s, PutIf(g, s, when, shape))
  {
  }

  lemma PutBlack(g: Page, s: Layout, shape: Shape)
    requires (shape.Glyph? || shape.Symbol?) && shape.black
    ensures Adds(s, Put(g, s, shape))
  {
  }

  // A black cell and a white character on it.
  lemma PairAdds(g: Page, s: Layout, w: nat, h: nat, shape: Shape)
    requires Seen(g.view, s.pen.y) && (shape.Glyph? || shape.Symbol?) && Width(shape) <= w
    ensures Adds(s, Put(g, Put(g, s, Fill(shape.x, w, h, true)), shape))
  {
    hide Seen, ScreenY;
    var b := Put(g, Put(g, s, Fill(shape.x, w, h, true)), shape);
    var n := |s.log|;
    assert |b.log| == n + 2 && b.log[n].shape == Fill(shape.x, w, h, true) && b.log[n + 1].shape == shape;
    if White(b.log[n + 1]) {
      assert Under(b.log[n], b.log[n + 1]);
      assert Backed(b.log, n, n + 1);
    }
  }

  lemma UnseenPut(g: Page, s: Layout, shape: Shape)
    requires !Seen(g.view, s.pen.y)
    ensures Put(g, s, shape) == s
  {
  }

  lemma PaintAddsNone(g: Page, s: Layout, x: int, w: int, luma: nat)
    ensures Adds(s, PaintBg(g, s, x, w, luma))
  {
    hide Adds;
    PutAddsNone(g, s, true, Texture(x, w, RowHeight(g, s), luma));
    PutAddsNone(g, s, luma < 128, Fill(x, w, RowHeight(g, s), true));
  }

  lemma GroundedGlyph(g: Page, s: Layout, bytes: seq<bv8>, invert: bool)
    ensures Adds(s, PutGlyph(g, Ground(g, s, false, invert), bytes, invert))
  {
    hide Adds, Pace, FaceOf, Put, RowHeight;
    FaceKeepsPace(g, s, bytes);
    var glyph := Glyph(FaceOf(g, s, bytes), s.pen.x, bytes, !invert);
    GroundPen(g, s, invert);
    var s1 := Ground(g, s, false, invert);
    SameFace(g, s, s1, bytes);
    if invert {
      if Seen(g.view, s.pen.y) {
        PairAdds(g, s, Pace(s), RowHeight(g, s), glyph);
      } else {
        UnseenPut(g, s, Fill(s.pen.x, Pace(s), RowHeight(g, s), true));
        UnseenPut(g, s, glyph);
        AddsSelf(s, s);
      }
    } else {
      PutAddsNone(g, s, true, Fill(s.pen.x, Pace(s), RowHeight(g, s), false));
      AddsSelf(s, s);
      PutBlack(g, s1, glyph);
      AddsOn(s, s1, Put(g, s1, glyph));
    }
  }

  lemma GroundPen(g: Page, s: Layout, invert: bool)
    ensures Ground(g, s, false, invert).pen == s.pen
  {
  }

  lemma SameFace(g: Page, a: Layout, b: Layout, bytes: seq<bv8>)
    requires a.pen == b.pen
    ensures FaceOf(g, a, bytes) == FaceOf(g, b, bytes)
  {
  }

  lemma CellLegible(g: Page, s: Layout, bytes: seq<bv8>, invert: bool)
    ensures Adds(s, CellOf(g, s, bytes, invert))
  {
    hide Adds, Put, PutGlyph, PaintBg, Pace, RowHeight;
    var blank := |bytes| == 1 && Blankish(bytes[0]);
    var s1 := Ground(g, s, blank, invert);
    var s2 := if blank then s1 else PutGlyph(g, s1, bytes, invert);
    var rule := Rule(s.pen.x, RowHeight(g, s) - 2, Pace(s), !invert);
    if blank {
      BlankGround(g, s, invert);
    } else {
      GroundedGlyph(g, s, bytes, invert);
    }
    PutAddsNone(g, s2, s.pen.underline, rule);
    AddsOn(s, s2, PutIf(g, s2, s.pen.underline, rule));
  }

  lemma BlankGround(g: Page, s: Layout, invert: bool)
    ensures Adds(s, Ground(g, s, true, invert))
  {
    hide Adds, Put, PaintBg;
    PaintAddsNone(g, s, s.pen.x, Pace(s), s.pen.bgLuma);
    PutAddsNone(g, s, invert, Fill(s.pen.x, Pace(s), RowHeight(g, s), true));
  }

  lemma {:induction false} WordLegible(g: Page, s: Layout, t: seq<bv8>, k: nat, e: nat, invert: bool)
    requires e <= |t|
    ensures Adds(s, Word(g, s, t, k, e, invert))
    decreases e - k
  {
    hide Adds, CellOf, Pace, ChunkAt;
    if k < e {
      var c := CellOf(g, s, ChunkAt(t, k), invert);
      var m := Moved(c, Pace(s));
      CellLegible(g, s, ChunkAt(t, k), invert);
      AddsSelf(c, m);
      AddsOn(s, c, m);
      WordLegible(g, m, t, k + SeqLen(t[k]), e, invert);
      AddsOn(s, m, Word(g, m, t, k + SeqLen(t[k]), e, invert));
    } else {
      AddsSelf(s, s);
    }
  }

  lemma LeadLegible(g: Page, s: Layout, leadW: nat, invert: bool)
    ensures Adds(s, Lead(g, s, leadW, invert))
  {
    hide Adds, Put, PaintBg;
    var s1 := if s.pen.hasBg then PaintBg(g, s, s.pen.x, leadW, s.pen.bgLuma) else s;
    var rule := Rule(s.pen.x, RowHeight(g, s) - 2, leadW, !invert);
    PaintAddsNone(g, s, s.pen.x, leadW, s.pen.bgLuma);
    AddsSelf(s, s);
    PutAddsNone(g, s1, s.pen.underline, rule);
    var s2 := PutIf(g, s1, s.pen.underline, rule);
    AddsOn(s, s1, s2);
    AddsSelf(s2, Moved(s2, leadW));
    AddsOn(s, s2, Moved(s2, leadW));
  }

  // ---- Words too long for a row ---------------------------------------

  lemma {:induction false} BlackLongWord(g: Page, s: Layout, t: seq<bv8>, k: nat, e: nat)
    requires e <= |t|
    ensures Adds(s, LongWord(g, s, t, k, e, false))
    decreases e - k
  {
    hide Adds, Pace, ChunkAt, Put, FaceOf;
    if k < e {
      var s1 := WrapIfNeeded(g, s, Pace(s));
      WrappedLog(g, s, Pace(s));
      var m := Moved(PutGlyph(g, s1, ChunkAt(t, k), false), Pace(s1));
      PutBlack(g, s1, Glyph(FaceOf(g, s1, ChunkAt(t, k)), s1.pen.x, ChunkAt(t, k), true));
      AddsSelf(s, s1);
      AddsOn(s, s1, PutGlyph(g, s1, ChunkAt(t, k), false));
      AddsSelf(PutGlyph(g, s1, ChunkAt(t, k), false), m);
      AddsOn(s, PutGlyph(g, s1, ChunkAt(t, k), false), m);
      BlackLongWord(g, m, t, k + SeqLen(t[k]), e);
      AddsOn(s, m, LongWord(g, m, t, k + SeqLen(t[k]), e, false));
    } else {
      AddsSelf(s, s);
    }
  }

  lemma WrappedLog(g: Page, s: Layout, w: nat)
    ensures WrapIfNeeded(g, s, w).log == s.log
  {
  }

  // One white glyph of such a word.
  lemma WhiteGlyph(cfg: Config, s: Layout, t: seq<bv8>, k: nat) returns (m: Layout)
    requires k < |t|
    ensures m == Moved(PutGlyph(Whole(cfg), WrapIfNeeded(Whole(cfg), s, Pace(s)), ChunkAt(t, k), true), Pace(WrapIfNeeded(Whole(cfg), s, Pace(s))))
    ensures |m.log| == |s.log| + 1 && s.log <= m.log && m.log[|s.log|].shape.Glyph? && White(m.log[|s.log|])
  {
    hide Pace, ChunkAt, FaceOf;
    WrappedLog(Whole(cfg), s, Pace(s));
    var s1 := WrapIfNeeded(Whole(cfg), s, Pace(s));
    m := Moved(PutGlyph(Whole(cfg), s1, ChunkAt(t, k), true), Pace(s1));
  }

  // Its second glyph follows its first, with no black between.
  lemma WhiteLongWord(cfg: Config, s: Layout, t: seq<bv8>, k: nat, e: nat, n: nat)
    requires e <= |t| && ChunkCount(t, k, e) >= 2 && n <= |s.log|
    ensures !Legible(LongWord(Whole(cfg), s, t, k, e, true).log, n)
  {
    hide Pace, ChunkAt, PutGlyph, WrapIfNeeded, Moved, Legible;
    var g := Whole(cfg);
    var next := k + SeqLen(t[k]);
    var a := WhiteGlyph(cfg, s, t, k);
    var b := WhiteGlyph(cfg, a, t, next);
    var i := |a.log|;
    assert White(b.log[i]) && b.log[i - 1].shape.Glyph? && !Backed(b.log, n, i);
    NotLegible(b.log, n, i);
    var rest := LongWord(g, b, t, next + SeqLen(t[next]), e, true);
    assert LongWord(g, s, t, k, e, true) == rest;
    LongWordGrows(g, b, t, next + SeqLen(t[next]), e, true);
    IllegibleOn(b.log, rest.log, n);
  }

  lemma NotLegible(log: seq<Draw>, n: nat, i: nat)
    requires n <= i < |log| && White(log[i]) && !Backed(log, n, i)
    ensures !Legible(log, n)
  {
  }

  // ---- Runs -----------------------------------------------------------

  /** A word of so many codepoints is broken at the margin rather than moved down. */
  predicate TooLong(left: nat, p: nat, n: nat) {
    Wrap16(n * p) > 396 - (left - 2)
  }

  /** No word of the run is too long for a row. */
  predicate NoLongWord(left: nat, p: nat, t: seq<bv8>, i: nat)
    requires Chunked(t, i)
    decreases |t| - i
  {
    i < |t| ==>
      (TokenBounds(t, i);
       var sp := SkipBlankish(t, i);
       var e := WordEnd(t, sp);
       !TooLong(left, p, ChunkCount(t, sp, e)) && NoLongWord(left, p, t, e))
  }

  lemma TokenLegible(g: Page, s: Layout, t: seq<bv8>, i: nat, sp: nat, e: nat, invert: bool)
    requires i <= sp <= e <= |t| && (!invert || !TooLong(Indent(s), Pace(s), ChunkCount(t, sp, e)))
    ensures Adds(s, Token(g, s, t, i, sp, e, invert))
  {
    hide Adds, Word, LongWord, Lead, Pace, ChunkCount, RowHeight;
    var leadW := LeadWidth(s, i, sp);
    if WordWidth(s, t, sp, e) > Usable(s) {
      BlackLongWord(g, s, t, i, e);
    } else {
      var n, l := Newline(g, s), Lead(g, s, leadW, invert);
      AddsSelf(s, n);
      WordLegible(g, n, t, sp, e, invert);
      AddsOn(s, n, Word(g, n, t, sp, e, invert));
      LeadLegible(g, s, leadW, invert);
      WordLegible(g, l, t, sp, e, invert);
      AddsOn(s, l, Word(g, l, t, sp, e, invert));
      WordLegible(g, s, t, sp, e, invert);
    }
  }

  lemma TokenIllegible(cfg: Config, s: Layout, t: seq<bv8>, i: nat, sp: nat, e: nat, n: nat)
    requires i <= sp <= e <= |t| && (forall j :: i <= j < sp ==> Blankish(t[j])) && n <= |s.log|
    requires TooLong(Indent(s), Pace(s), ChunkCount(t, sp, e))
    ensures !Legible(Token(Whole(cfg), s, t, i, sp, e, true).log, n)
  {
    hide LongWord, Legible, Word, Lead;
    BlanksCount(t, i, sp, e);
    FewAreShort(s, ChunkCount(t, sp, e));
    WhiteLongWord(cfg, s, t, i, e, n);
  }

  lemma FewAreShort(s: Layout, n: nat)
    requires TooLong(Indent(s), Pace(s), n)
    ensures n >= 2
  {
  }

  /** White prose is legible exactly when none of its words is too long for a row; black prose always is. */
  lemma {:induction false} ProseLegibleIff(cfg: Config, s: Layout, t: seq<bv8>, i: nat, invert: bool, n: nat)
    requires Chunked(t, i) && n <= |s.log| && Legible(s.log, n)
    ensures s.log <= Tokens(Whole(cfg), s, t, i, invert).log
    ensures Legible(Tokens(Whole(cfg), s, t, i, invert).log, n) <==> !invert || NoLongWord(Indent(s), Pace(s), t, i)
    decreases |t| - i
  {
    hide Legible, Token, Pace, Indent, ChunkCount, TooLong;
    TokensGrow(Whole(cfg), s, t, i, invert);
    if i < |t| {
      var g := Whole(cfg);
      TokenReach(t, i);
      var sp := SkipBlankish(t, i);
      var e := WordEnd(t, sp);
      var b := Token(g, s, t, i, sp, e, invert);
      TokenGrows(g, s, t, i, sp, e, invert);
      if invert && TooLong(Indent(s), Pace(s), ChunkCount(t, sp, e)) {
        TokenIllegible(cfg, s, t, i, sp, e, n);
        TokensGrow(g, b, t, e, invert);
        IllegibleOn(b.log, Tokens(g, b, t, e, invert).log, n);
      } else {
        TokenLegible(g, s, t, i, sp, e, invert);
        LegibleOn(s.log, b.log, n);
        TokenSame(g, s, t, i, sp, e, invert);
        ProseLegibleIff(cfg, b, t, e, invert, n);
      }
    }
  }

  lemma TokenSame(g: Page, s: Layout, t: seq<bv8>, i: nat, sp: nat, e: nat, invert: bool)
    requires i <= sp <= e <= |t| && forall j :: i <= j < sp ==> Blankish(t[j])
    ensures var b := Token(g, s, t, i, sp, e, invert); Pace(b) == Pace(s) && Indent(b) == Indent(s)
  {
    hide Pace, Indent, Token, TokenWalk;
    TokenWalks(g, s, t, i, sp, e, invert);
    var w := TokenWalk(Indent(s), Pace(s), s.pen.x, sp - i, ChunkCount(t, sp, e));
    WentKeeps(g, s, Token(g, s, t, i, sp, e, invert), w.rows, w.x);
  }

  // Preformatted text lays its black cell by cell, and under the mark that ends a clipped row.
  lemma {:induction false} LiteralLegible(g: Page, s: Layout, t: seq<bv8>, k: nat, invert: bool)
    ensures Adds(s, LiteralFrom(g, s, t, k, invert))
    decreases |t| - k
  {
    hide Adds, LiteralCellOf, ChunkAt, Clipped;
    if k < |t| {
      if s.pen.x + FONT_ADVANCE > RIGHT {
        ClippedLegible(g, s, invert);
      } else {
        var c := LiteralCellOf(g, s, ChunkAt(t, k), invert);
        LiteralCellLegible(g, s, ChunkAt(t, k), invert);
        LiteralLegible(g, c, t, k + SeqLen(t[k]), invert);
        AddsOn(s, c, LiteralFrom(g, c, t, k + SeqLen(t[k]), invert));
      }
    } else {
      AddsSelf(s, s);
    }
  }

  lemma OnCell(g: Page, s: Layout, x: int, h: nat, invert: bool, shape: Shape)
    requires (shape.Glyph? || shape.Symbol?) && Width(shape) == 6 && shape.x == x && shape.black == !invert
    ensures Adds(s, Put(g, Put(g, s, Fill(x, 6, h, invert)), shape))
    ensures Adds(s, Put(g, PutIf(g, s, invert, Fill(x, 6, h, true)), shape))
  {
    hide Adds, Put;
    if invert {
      if Seen(g.view, s.pen.y) {
        PairAdds(g, s, 6, h, shape);
      } else {
        UnseenPut(g, s, Fill(x, 6, h, true));
        UnseenPut(g, s, shape);
        AddsSelf(s, s);
      }
    } else {
      var a := Put(g, s, Fill(x, 6, h, false));
      PutAddsNone(g, s, true, Fill(x, 6, h, false));
      PutBlack(g, a, shape);
      AddsOn(s, a, Put(g, a, shape));
      PutBlack(g, s, shape);
    }
  }

  lemma LiteralCellLegible(g: Page, s: Layout, bytes: seq<bv8>, invert: bool)
    ensures Adds(s, LiteralCellOf(g, s, bytes, invert))
  {
    hide Adds, Put;
    OnCell(g, s, s.pen.x, RowHeight(g, s), invert, Glyph(Body, s.pen.x, bytes, !invert));
    var a := Put(g, PutIf(g, s, invert, Fill(s.pen.x, 6, RowHeight(g, s), true)), Glyph(Body, s.pen.x, bytes, !invert));
    AddsSelf(a, Moved(a, 6));
    AddsOn(s, a, Moved(a, 6));
  }

  lemma ClippedLegible(g: Page, s: Layout, invert: bool)
    ensures Adds(s, Clipped(g, s, invert))
  {
    hide Adds, Put;
    var mark := Symbol(392, [0xC2, 0xBB], !invert);
    OnCell(g, s, 392, RowHeight(g, s), invert, mark);
    var a := Put(g, Put(g, s, Fill(392, 6, RowHeight(g, s), invert)), mark);
    AddsSelf(a, Opened(a));
    AddsOn(s, a, Opened(a));
  }

  /** A run's words, if it is prose. */
  predicate Readable(s: Layout, t: seq<bv8>, invert: bool)
    requires Chunked(t, 0)
  {
    !invert || s.pen.literal || NoLongWord(Indent(s), Pace(s), t, 0)
  }

  lemma RunLegibleIff(cfg: Config, s: Layout, t: seq<bv8>, invert: bool, n: nat)
    requires Chunked(t, 0) && n <= |s.log| && Legible(s.log, n)
    ensures s.log <= EmitRun(Whole(cfg), s, t, invert).log
    ensures Legible(EmitRun(Whole(cfg), s, t, invert).log, n) <==> Readable(s, t, invert)
  {
    hide Legible, Tokens, LiteralFrom, Pace, NoLongWord;
    var g := Whole(cfg);
    if s.pen.literal {
      var a := ToMargin(s);
      LiteralLegible(g, a, t, 0, invert);
      LegibleOn(s.log, LiteralFrom(g, a, t, 0, invert).log, n);
    } else {
      var a := PullBack(s);
      SamePace(s, a);
      ProseLegibleIff(cfg, a, t, 0, invert, n);
    }
  }
  // ---- Fields ---------------------------------------------------------

  /** The bar of a dark field and the characters on it. */
  predicate OnBar(log: seq<Draw>, n: nat, row: nat, from: int, to: int) {
    && n < |log| && log[n].shape.Fill? && log[n].shape.black && log[n].row == row
    && log[n].shape.x <= from && to <= log[n].shape.x + log[n].shape.w
    && forall i :: n < i < |log| ==> log[i].shape.Symbol? && (White(log[i]) ==> Under(log[n], log[i]))
  }

  lemma BarLegible(log: seq<Draw>, n: nat, row: nat, from: int, to: int)
    requires OnBar(log, n, row, from, to)
    ensures Legible(log, n)
  {
    forall i | n <= i < |log| && White(log[i])
      ensures Backed(log, n, i)
    {
      assert Under(log[n], log[i]);
    }
  }

  lemma {:induction false} ColsOnBar(cfg: Config, s: Layout, f: Field, col: nat, vk: nat, hasBg: bool, ink: bool, n: nat, x0: nat, to: int)
    requires OnBar(s.log, n, s.pen.y, x0, to) && x0 <= s.pen.x && col <= FieldWidth(f)
    requires s.pen.x + 6 * (FieldWidth(f) - col) <= to || 398 <= to
    ensures var b := FieldCols(Whole(cfg), s, f, col, vk, hasBg, ink); OnBar(b.log, n, s.pen.y, x0, to)
    decreases FieldWidth(f) - col
  {
    hide FieldWidth, ChunkAt;
    if col < FieldWidth(f) && s.pen.x + FONT_ADVANCE <= RIGHT {
      var c := FieldCell(Whole(cfg), s, f, vk, hasBg, ink);
      CellOnBar(cfg, s, f, vk, hasBg, ink, n, x0, to);
      ColsOnBar(cfg, Moved(c, FONT_ADVANCE), f, col + 1, if vk < |f.value| then vk + SeqLen(f.value[vk]) else vk, hasBg, ink, n, x0, to);
    }
  }

  lemma CellOnBar(cfg: Config, s: Layout, f: Field, vk: nat, hasBg: bool, ink: bool, n: nat, x0: nat, to: int)
    requires OnBar(s.log, n, s.pen.y, x0, to) && x0 <= s.pen.x && s.pen.x + 6 <= to
    ensures var b := FieldCell(Whole(cfg), s, f, vk, hasBg, ink); OnBar(b.log, n, s.pen.y, x0, to) && b.pen == s.pen
  {
    hide ChunkAt;
  }

  lemma {:induction false} BlackCols(g: Page, s: Layout, f: Field, col: nat, vk: nat, hasBg: bool)
    ensures Adds(s, FieldCols(g, s, f, col, vk, hasBg, true))
    decreases FieldWidth(f) - col
  {
    hide Adds, FieldWidth, ChunkAt, Put;
    if col < FieldWidth(f) && s.pen.x + FONT_ADVANCE <= RIGHT {
      var c := FieldCell(g, s, f, vk, hasBg, true);
      AddsSelf(s, s);
      PutBlack(g, s, Symbol(s.pen.x, [0x5F], true));
      if vk < |f.value| {
        PutBlack(g, s, Symbol(s.pen.x, if f.masked then [0x2A] else ChunkAt(f.value, vk), true));
      }
      var m := Moved(c, FONT_ADVANCE);
      AddsSelf(c, m);
      AddsOn(s, c, m);
      var next := if vk < |f.value| then vk + SeqLen(f.value[vk]) else vk;
      BlackCols(g, m, f, col + 1, next, hasBg);
      AddsOn(s, m, FieldCols(g, m, f, col + 1, next, hasBg, true));
    } else {
      AddsSelf(s, s);
    }
  }

  lemma ColsNoRoom(g: Page, s: Layout, f: Field, hasBg: bool, ink: bool)
    requires s.pen.x + 6 > 398
    ensures FieldCols(g, s, f, 0, 0, hasBg, ink) == s
  {
  }

  // A text field's value stands on its bar.
  lemma TextFieldLegible(cfg: Config, s: Layout, f: Field, style: Style)
    ensures s.log <= OnTextField(Whole(cfg), s, f, style).log && Legible(OnTextField(Whole(cfg), s, f, style).log, |s.log|)
  {
    hide Luma, HasBg, FieldCols, Legible;
    var g := Whole(cfg);
    var n := |s.log|;
    if HasBg(style.bg) && Luma(style.bg) < 128 {
      var bar := Put(g, s, Fill(s.pen.x, BarWidth(s, f), RowHeight(g, s), true));
      DarkCols(cfg, s, f);
    } else {
      var luma := if HasBg(style.bg) then Luma(style.bg) else 255;
      var s1 := if HasBg(style.bg) then PaintBg(g, s, s.pen.x, BarWidth(s, f), luma) else s;
      hide Adds, PaintBg;
      PaintAddsNone(g, s, s.pen.x, BarWidth(s, f), luma);
      AddsSelf(s, s);
      BlackCols(g, s1, f, 0, 0, HasBg(style.bg));
      AddsOn(s, s1, FieldCols(g, s1, f, 0, 0, HasBg(style.bg), true));
      AddsMeans(s, FieldCols(g, s1, f, 0, 0, HasBg(style.bg), true));
    }
  }

  lemma AddsMeans(a: Layout, b: Layout)
    requires Adds(a, b)
    ensures a.log <= b.log && Legible(b.log, |a.log|)
  {
  }

  lemma DarkCols(cfg: Config, s: Layout, f: Field)
    ensures var bar := Put(Whole(cfg), s, Fill(s.pen.x, BarWidth(s, f), RowHeight(Whole(cfg), s), true));
      var b := FieldCols(Whole(cfg), bar, f, 0, 0, true, false);
      s.log <= b.log && Legible(b.log, |s.log|)
  {
    hide FieldCols, Legible;
    var bar := Put(Whole(cfg), s, Fill(s.pen.x, BarWidth(s, f), RowHeight(Whole(cfg), s), true));
    var n := |s.log|;
    if s.pen.x + 6 > 398 {
      ColsNoRoom(Whole(cfg), bar, f, true, false);
      PutAddsNone(Whole(cfg), s, true, Fill(s.pen.x, BarWidth(s, f), RowHeight(Whole(cfg), s), true));
      AddsMeans(s, bar);
    } else {
      var to := s.pen.x + BarWidth(s, f);
      ColsOnBar(cfg, bar, f, 0, 0, true, false, n, s.pen.x, to);
      BarLegible(FieldCols(Whole(cfg), bar, f, 0, 0, true, false).log, n, s.pen.y, s.pen.x, to);
      ColsKeep(Whole(cfg), bar, f, 0, 0, true, false);
    }
  }

  lemma {:induction false} ColsKeep(g: Page, s: Layout, f: Field, col: nat, vk: nat, hasBg: bool, ink: bool)
    ensures s.log <= FieldCols(g, s, f, col, vk, hasBg, ink).log
    decreases FieldWidth(f) - col
  {
    hide FieldWidth, ChunkAt;
    if col < FieldWidth(f) && s.pen.x + FONT_ADVANCE <= RIGHT {
      ColsKeep(g, Moved(FieldCell(g, s, f, vk, hasBg, ink), FONT_ADVANCE), f, col + 1,
               if vk < |f.value| then vk + SeqLen(f.value[vk]) else vk, hasBg, ink);
    }
  }

  // A mark is drawn in the colour of the text around it, on nothing.
  lemma MarkLegibleIff(cfg: Config, s: Layout, f: Field)
    ensures s.log <= OnMark(Whole(cfg), s, f).log && (Legible(OnMark(Whole(cfg), s, f).log, |s.log|) <==> !s.pen.invert)
  {
    var b := OnMark(Whole(cfg), s, f);
    if s.pen.invert {
      assert White(b.log[|s.log|]);
    }
  }
  lemma RunGrow(g: Page, s: Layout, t: seq<bv8>, invert: bool)
    requires Chunked(t, 0)
    ensures s.log <= EmitRun(g, s, t, invert).log
  {
    hide Tokens, LiteralFrom;
    if s.pen.literal {
      LiteralLegible(g, ToMargin(s), t, 0, invert);
    } else {
      TokensGrow(g, PullBack(s), t, 0, invert);
    }
  }

  lemma NothingNew(log: seq<Draw>)
    ensures Legible(log, |log|)
  {
  }

  // A run of the callback that began with n draws and was legible so far.
  lemma RunOnIff(cfg: Config, a: Layout, s: Layout, t: seq<bv8>, invert: bool)
    requires Chunked(t, 0) && Adds(a, s)
    ensures var b := EmitRun(Whole(cfg), s, t, invert); a.log <= b.log && (Adds(a, b) <==> Readable(s, t, invert))
  {
    hide Legible, EmitRun, Readable;
    RunLegibleIff(cfg, s, t, invert, |a.log|);
  }

  lemma IllegibleRun(g: Page, a: Layout, s: Layout, t: seq<bv8>, invert: bool)
    requires Chunked(t, 0) && a.log <= s.log && !Adds(a, s)
    ensures !Adds(a, EmitRun(g, s, t, invert))
  {
    hide Legible, EmitRun;
    RunGrow(g, s, t, invert);
    IllegibleOn(s.log, EmitRun(g, s, t, invert).log, |a.log|);
  }

  lemma TextLegibleIff(cfg: Config, s: Layout, t: seq<bv8>, style: Style)
    requires Chunked(t, 0)
    ensures var s1 := Styled(Whole(cfg), s, t, style); s1.log == s.log
    ensures Adds(s, OnText(Whole(cfg), s, t, style)) <==> Readable(Styled(Whole(cfg), s, t, style), t, HasBg(style.bg) && Luma(style.bg) < 128)
  {
    hide Adds, EmitRun, Readable, HasBg, Luma, AllIn, Cells;
    var s1 := Styled(Whole(cfg), s, t, style);
    AddsSelf(s, s1);
    RunOnIff(cfg, s, s1, t, s1.pen.invert);
  }

  lemma MarkAddsIff(cfg: Config, s: Layout, f: Field)
    ensures s.log <= OnMark(Whole(cfg), s, f).log && (Adds(s, OnMark(Whole(cfg), s, f)) <==> !s.pen.invert)
    ensures OnMark(Whole(cfg), s, f).pen.invert == s.pen.invert
  {
    hide Legible;
    MarkLegibleIff(cfg, s, f);
  }

  lemma AddsSince(a: Layout, s: Layout, b: Layout)
    requires a.log == s.log
    ensures Adds(a, b) == Adds(s, b)
  {
  }

  lemma FieldLegibleIff(cfg: Config, s: Layout, f: Field, style: Style)
    requires Chunked(f.caption, 0)
    ensures Adds(s, OnField(Whole(cfg), s, f, style)) <==> f.kind == TextField || !s.pen.invert
  {
    hide Adds, EmitRun, OnMark, OnTextField;
    var g := Whole(cfg);
    var s1 := ToMargin(Deepened(s, style.depth));
    AddsSince(s, s1, OnField(g, s, f, style));
    if f.kind == TextField {
      TextFieldLegible(cfg, s1, f, style);
      AddsIs(s1, OnTextField(g, s1, f, style));
    } else {
      MarkAddsIff(cfg, s1, f);
      if f.caption != [] {
        CaptionKeeps(cfg, s1, OnMark(g, s1, f), f);
      }
    }
  }

  lemma AddsIs(a: Layout, b: Layout)
    requires a.log <= b.log && Legible(b.log, |a.log|)
    ensures Adds(a, b)
  {
  }

  lemma CaptionKeeps(cfg: Config, a: Layout, s: Layout, f: Field)
    requires Chunked(f.caption, 0) && a.log <= s.log && (s.pen.invert ==> !Adds(a, s)) && (!s.pen.invert ==> Adds(a, s))
    ensures var s3 := EmitRun(Whole(cfg), s, OneSpace(), s.pen.invert);
      Adds(a, EmitRun(Whole(cfg), s3, f.caption, s3.pen.invert)) <==> !s.pen.invert
  {
    hide Adds, EmitRun;
    var g := Whole(cfg);
    var s3 := EmitRun(g, s, OneSpace(), s.pen.invert);
    RunInvert(g, s, OneSpace(), s.pen.invert);
    RunGrow(g, s, OneSpace(), s.pen.invert);
    if s.pen.invert {
      IllegibleRun(g, a, s, OneSpace(), true);
      IllegibleRun(g, a, s3, f.caption, true);
    } else {
      RunOnIff(cfg, a, s, OneSpace(), false);
      RunOnIff(cfg, a, s3, f.caption, false);
    }
  }

  lemma RunInvert(g: Page, s: Layout, t: seq<bv8>, invert: bool)
    requires Chunked(t, 0)
    ensures var b := EmitRun(g, s, t, invert); b.pen.invert == s.pen.invert && b.pen.literal == s.pen.literal && Pace(b) == Pace(s) && Indent(b) == Indent(s)
  {
    hide EmitRun, Pace, Indent, WentTo;
    RunWalks(g, s, t, invert);
    WentInvert(g, s, EmitRun(g, s, t, invert), RunWalk(s.pen, t).rows, RunWalk(s.pen, t).x);
  }

  lemma WentInvert(g: Page, a: Layout, b: Layout, rows: nat, x: U16)
    requires WentTo(g, a.pen, b.pen, rows, x)
    ensures b.pen.invert == a.pen.invert && b.pen.literal == a.pen.literal && Pace(b) == Pace(a) && Indent(b) == Indent(a)
  {
    SamePace(a, b);
  }
  // ---- The other callbacks --------------------------------------------

  lemma LinkLegibleIff(cfg: Config, a: Layout, s: Layout, caption: seq<bv8>, target: seq<bv8>, style: Style)
    requires Chunked(caption, 0) && Adds(a, s)
    ensures Adds(a, OnLink(Whole(cfg), s, caption, target, style)) <==> Readable(Deepened(s, style.depth), caption, s.pen.invert)
  {
    hide Adds, EmitRun, Pace, Indent, Readable, OnLink;
    var g := Whole(cfg);
    var s1 := ToMargin(Deepened(s, style.depth));
    MarginSame(Deepened(s, style.depth));
    AddsSelf(s, s1);
    AddsOn(a, s, s1);
    RunOnIff(cfg, a, s1, caption, s1.pen.invert);
    ReadableSame(Deepened(s, style.depth), s1, caption, s.pen.invert);
    var s2 := EmitRun(g, s1, caption, s1.pen.invert);
    BoxAdds(g, s, s2, caption, target, style);
    ThenNothing(a, s2, OnLink(g, s, caption, target, style));
  }

  lemma MarginSame(s: Layout)
    ensures var b := ToMargin(s); b.log == s.log && Pace(b) == Pace(s) && Indent(b) == Indent(s) && b.pen.literal == s.pen.literal && b.pen.invert == s.pen.invert
  {
  }

  lemma BoxAdds(g: Page, s: Layout, s2: Layout, caption: seq<bv8>, target: seq<bv8>, style: Style)
    requires Chunked(caption, 0) && s2 == EmitRun(g, ToMargin(Deepened(s, style.depth)), caption, s.pen.invert)
    ensures Adds(s2, OnLink(g, s, caption, target, style))
  {
    hide Adds, EmitRun, Put, Indent;
    var s1 := ToMargin(Deepened(s, style.depth));
    PutAddsNone(g, s2, true, Link(s1.pen.x, ScreenY(g.view, s1.pen.y), if s2.pen.x > s1.pen.x then s2.pen.x - s1.pen.x else 0, RowHeight(g, s2), target));
  }

  // Adding nothing white changes nothing.
  lemma ThenNothing(a: Layout, b: Layout, c: Layout)
    requires a.log <= b.log && Adds(b, c)
    ensures Adds(a, b) <==> Adds(a, c)
  {
    hide Legible;
    if Adds(a, b) {
      AddsOn(a, b, c);
    } else {
      IllegibleOn(b.log, c.log, |a.log|);
    }
  }

  lemma {:induction false} DividerLegible(g: Page, s: Layout, x: nat, bytes: seq<bv8>)
    ensures Adds(s, DividerFrom(g, s, x, bytes))
    decreases RIGHT - x
  {
    hide Adds, Put;
    if x + FONT_ADVANCE <= RIGHT {
      var a := Put(g, s, Symbol(x, bytes, true));
      PutBlack(g, s, Symbol(x, bytes, true));
      DividerLegible(g, a, x + FONT_ADVANCE, bytes);
      AddsOn(s, a, DividerFrom(g, a, x + FONT_ADVANCE, bytes));
    } else {
      AddsSelf(s, s);
    }
  }

  lemma BlackRun(cfg: Config, s: Layout, t: seq<bv8>)
    requires Chunked(t, 0)
    ensures Adds(s, EmitRun(Whole(cfg), s, t, false))
  {
    hide Adds, EmitRun;
    AddsSelf(s, s);
    RunOnIff(cfg, s, s, t, false);
  }

  lemma {:induction false} CellsLegible(cfg: Config, s: Layout, row: Row, fit: seq<nat>, ln: nat, c: nat, x: U16)
    requires |row| == |fit| && RowChunked(row)
    ensures Adds(s, CellsOn(Whole(cfg), s, row, fit, ln, c, x))
    decreases |row| - c
  {
    hide Adds, EmitRun, Slice;
    var g := Whole(cfg);
    AddsSelf(s, s);
    if c < |row| {
      var t := Slice(row[c], fit[c], ln);
      var a := AtColumn(s, x);
      AddsSelf(s, a);
      BlackRun(cfg, a, t);
      AddsOn(s, a, EmitRun(g, a, t, false));
      var s1 := if t == [] then s else EmitRun(g, a, t, false);
      CellsLegible(cfg, s1, row, fit, ln, c + 1, Wrap16(x + (fit[c] + GAP) * 6));
      AddsOn(s, s1, CellsOn(g, s1, row, fit, ln, c + 1, Wrap16(x + (fit[c] + GAP) * 6)));
    }
  }

  lemma {:induction false} GuttersLegible(g: Page, s: Layout, fit: seq<nat>, c: nat, x: U16)
    ensures Adds(s, Gutters(g, s, fit, c, x))
    decreases |fit| - c
  {
    hide Adds, PutAnyway;
    AddsSelf(s, s);
    if c + 1 < |fit| {
      var x': U16 := Wrap16(x + (fit[c] + GAP) * 6);
      var a := PutAnyway(g, s, Fill(Wrap16(x' - 4), 1, LineHeight(g), true));
      GutterAdds(g, s, Fill(Wrap16(x' - 4), 1, LineHeight(g), true));
      GuttersLegible(g, a, fit, c + 1, x');
      AddsOn(s, a, Gutters(g, a, fit, c + 1, x'));
    }
  }

  lemma GutterAdds(g: Page, s: Layout, shape: Shape)
    requires shape.Fill?
    ensures Adds(s, PutAnyway(g, s, shape))
  {
  }

  lemma LineLegible(cfg: Config, s: Layout, row: Row, fit: seq<nat>, ln: nat)
    requires |row| == |fit| && RowChunked(row)
    ensures Adds(s, TableLine(Whole(cfg), s, row, fit, ln))
  {
    hide Adds, CellsOn, Gutters;
    var g := Whole(cfg);
    var a := CellsOn(g, s, row, fit, ln, 0, Indent(s));
    var b := Gutters(g, a, fit, 0, Indent(s));
    CellsLegible(cfg, s, row, fit, ln, 0, Indent(s));
    GuttersLegible(g, a, fit, 0, Indent(s));
    AddsOn(s, a, b);
    AddsSelf(b, LineDone(g, b));
    AddsOn(s, b, LineDone(g, b));
  }

  lemma {:induction false} LinesLegible(cfg: Config, s: Layout, row: Row, fit: seq<nat>, ln: nat, lines: nat)
    requires |row| == |fit| && RowChunked(row)
    ensures Adds(s, TableLines(Whole(cfg), s, row, fit, ln, lines))
    decreases lines - ln
  {
    hide Adds, TableLine;
    AddsSelf(s, s);
    if ln < lines {
      var a := TableLine(Whole(cfg), s, row, fit, ln);
      LineLegible(cfg, s, row, fit, ln);
      LinesLegible(cfg, a, row, fit, ln + 1, lines);
      AddsOn(s, a, TableLines(Whole(cfg), a, row, fit, ln + 1, lines));
    }
  }

  lemma {:induction false} RowsLegible(cfg: Config, s: Layout, rows: seq<Row>, fit: seq<nat>, r: nat)
    requires TableShape(rows, fit)
    ensures Adds(s, TableRows(Whole(cfg), s, rows, fit, r))
    decreases |rows| - r
  {
    hide Adds, TableRow;
    AddsSelf(s, s);
    if r < |rows| {
      var a := TableRow(Whole(cfg), s, rows[r], fit, r == 0);
      TableRowLegible(cfg, s, rows[r], fit, r == 0);
      RowsLegible(cfg, a, rows, fit, r + 1);
      AddsOn(s, a, TableRows(Whole(cfg), a, rows, fit, r + 1));
    }
  }

  lemma TableRowLegible(cfg: Config, s: Layout, row: Row, fit: seq<nat>, header: bool)
    requires |row| == |fit| && RowChunked(row)
    ensures Adds(s, TableRow(Whole(cfg), s, row, fit, header))
  {
    hide Adds, TableLines, Put, RowLines;
    var a := TableLines(Whole(cfg), s, row, fit, 0, RowLines(row, fit, |row|));
    LinesLegible(cfg, s, row, fit, 0, RowLines(row, fit, |row|));
    PutAddsNone(Whole(cfg), a, header, Rule(Indent(a), -1, RIGHT - Indent(a), true));
    AddsSelf(a, a);
    AddsOn(s, a, TableRow(Whole(cfg), s, row, fit, header));
  }

  lemma TableLegible(cfg: Config, s: Layout, rows: seq<Row>, widths: seq<nat>)
    requires TableShape(rows, widths)
    ensures Adds(s, TableFlush(Whole(cfg), s, rows, widths))
  {
    hide Adds, TableRows, Put, Fitted;
    AddsSelf(s, s);
    if rows != [] && widths != [] {
      var g := Whole(cfg);
      var fit := Fitted(widths, TableAvail(s));
      var a := TableRows(g, s, rows, fit, 0);
      RowsLegible(cfg, s, rows, fit, 0);
      var b := Put(g, a, Rule(Indent(a), 0, RIGHT - Indent(a), true));
      PutAddsNone(g, a, true, Rule(Indent(a), 0, RIGHT - Indent(a), true));
      AddsOn(s, a, b);
      var c := TableFlush(g, s, rows, widths);
      AddsSelf(b, c);
      AddsOn(s, b, c);
    }
  }

  lemma LineEndLegible(g: Page, s: Layout, style: Style)
    ensures Adds(s, OnLineEnd(g, s, style))
  {
    hide Adds, Put;
    var s1 := Deepened(s, style.depth);
    var rule := Rule(Indent(s1), RowHeight(g, s1) - 1, RuleWidth(s1, style), true);
    var s2 := PutIf(g, s1, s1.pen.headRule && s1.pen.rowOpen, rule);
    AddsSelf(s, s1);
    PutAddsNone(g, s1, s1.pen.headRule && s1.pen.rowOpen, rule);
    AddsOn(s, s1, s2);
    AddsSelf(s2, Closed(g, s2, style, s.pen.head));
    AddsOn(s, s2, Closed(g, s2, style, s.pen.head));
  }

  // ---- Every callback -------------------------------------------------

  /** The conditions under which what a callback draws can be read. */
  predicate CallbackReadable(cfg: Config, s: Layout, cb: Callback)
    requires WellFormed(cb)
  {
    match cb
    case Text(t, style) => Readable(Styled(Whole(cfg), s, t, style), t, HasBg(style.bg) && Luma(style.bg) < 128)
    case LinkTo(caption, _, style) => Readable(Deepened(s, style.depth), caption, s.pen.invert)
    case FieldOf(f, _) => f.kind == TextField || !s.pen.invert
    case Image(alt, url, style) => Readable(Deepened(s, style.depth), if alt != [] then alt else url, s.pen.invert)
    case Partial(url, style) => Readable(Deepened(s, style.depth), url, s.pen.invert)
    case _ => true
  }

  lemma ShortPrefix(s: Layout, t: seq<bv8>, word: nat)
    requires |t| == word + 1 && 1 <= word <= 5 && t[word] == 0x20
    requires forall j :: 0 <= j < word ==> t[j] < 0x80 && !Blankish(t[j])
    ensures Chunked(t, 0) && NoLongWord(Indent(s), Pace(s), t, 0)
  {
    AsciiChunked(t, 0);
    PrefixWord(t, 0, word);
    TokenBounds(t, 0);
    assert SkipBlankish(t, 0) == 0;
    assert WordEnd(t, 0) == word;
    ShortIsShort(s, ChunkCount(t, 0, word));
    ShortIsShort(s, 0);
    TokenBounds(t, word);
    assert SkipBlankish(t, word + 1) == word + 1 && SkipBlankish(t, word) == word + 1 && WordEnd(t, word + 1) == word + 1;
    assert ChunkCount(t, word + 1, word + 1) == 0;
    assert NoLongWord(Indent(s), Pace(s), t, word + 1);
    assert NoLongWord(Indent(s), Pace(s), t, word);
  }

  lemma {:induction false} PrefixWord(t: seq<bv8>, k: nat, word: nat)
    requires |t| == word + 1 && k <= word && t[word] == 0x20
    requires forall j :: 0 <= j < word ==> t[j] < 0x80 && !Blankish(t[j])
    ensures WordEnd(t, k) == word && ChunkCount(t, k, word) == word - k
    decreases word - k
  {
    if k < word {
      assert SeqLen(t[k]) == 1;
      PrefixWord(t, k + 1, word);
    }
  }

  lemma ShortIsShort(s: Layout, n: nat)
    requires n <= 5
    ensures !TooLong(Indent(s), Pace(s), n)
  {
    LayoutPlaced.PaceBounds(s);
    Arith.Grows(n, 5, Pace(s));
  }

  lemma ReadableSame(a: Layout, b: Layout, t: seq<bv8>, invert: bool)
    requires Chunked(t, 0) && Pace(a) == Pace(b) && Indent(a) == Indent(b) && a.pen.literal == b.pen.literal
    ensures Readable(a, t, invert) == Readable(b, t, invert)
  {
  }

  // A short word and a space in front change nothing.
  lemma PrefixedRun(cfg: Config, s: Layout, t: seq<bv8>, word: nat)
    requires |t| == word + 1 && 1 <= word <= 5 && t[word] == 0x20
    requires forall j :: 0 <= j < word ==> t[j] < 0x80 && !Blankish(t[j])
    ensures Chunked(t, 0)
    ensures var b := EmitRun(Whole(cfg), s, t, s.pen.invert);
      && Adds(s, b) && b.pen.invert == s.pen.invert && b.pen.literal == s.pen.literal && Pace(b) == Pace(s) && Indent(b) == Indent(s)
  {
    hide Adds, EmitRun, Pace, Indent, NoLongWord;
    ShortPrefix(s, t, word);
    AddsSelf(s, s);
    RunInvert(Whole(cfg), s, t, s.pen.invert);
    RunOnIff(cfg, s, s, t, s.pen.invert);
  }

  lemma ImageLegibleIff(cfg: Config, s: Layout, alt: seq<bv8>, url: seq<bv8>, style: Style)
    requires Chunked(alt, 0) && Chunked(url, 0)
    ensures Adds(s, OnImage(Whole(cfg), s, alt, url, style))
       <==> Readable(Deepened(s, style.depth), if alt != [] then alt else url, s.pen.invert)
  {
    hide Adds, EmitRun, Pace, Indent, Readable;
    var s1 := Deepened(s, style.depth);
    var t := Ascii([0x5B, 0x69, 0x6D, 0x67, 0x5D, 0x20]);
    PrefixedRun(cfg, s1, t, 5);
    var s2 := EmitRun(Whole(cfg), s1, t, s1.pen.invert);
    var name := if alt != [] then alt else url;
    RunOnIff(cfg, s1, s2, name, s2.pen.invert);
    ReadableSame(s1, s2, name, s.pen.invert);
    AddsSince(s, s1, OnImage(Whole(cfg), s, alt, url, style));
  }

  lemma PartialLegibleIff(cfg: Config, s: Layout, url: seq<bv8>, style: Style)
    requires Chunked(url, 0)
    ensures Adds(s, OnPartial(Whole(cfg), s, url, style)) <==> Readable(Deepened(s, style.depth), url, s.pen.invert)
  {
    hide Adds, EmitRun, OnLink, Readable;
    var s1 := Deepened(s, style.depth);
    var t := Ascii([0x5B, 0x2B, 0x5D, 0x20]);
    PrefixedRun(cfg, s1, t, 3);
    var s2 := EmitRun(Whole(cfg), s1, t, s1.pen.invert);
    LinkLegibleIff(cfg, s1, s2, url, url, style);
    DeeperSame(s1, s2, style.depth);
    ReadableSame(s1, Deepened(s2, style.depth), url, s.pen.invert);
    AddsSince(s, s1, OnPartial(Whole(cfg), s, url, style));
  }

  lemma DeeperSame(a: Layout, b: Layout, depth: nat)
    requires a.pen.depth == depth && Pace(b) == Pace(a)
    ensures Indent(Deepened(b, depth)) == Indent(a) && Pace(Deepened(b, depth)) == Pace(a)
  {
  }

  lemma DividerAddsAll(cfg: Config, s: Layout, ch: bv32, style: Style)
    ensures Adds(s, OnDivider(Whole(cfg), s, ch, style))
  {
    hide Adds, DividerFrom, DividerBytes;
    var s1 := ToMargin(Deepened(s, style.depth));
    var b := DividerFrom(Whole(cfg), s1, Indent(s1), DividerBytes(ch));
    DividerLegible(Whole(cfg), s1, Indent(s1), DividerBytes(ch));
    AddsSelf(s, s1);
    AddsOn(s, s1, b);
    AddsSelf(b, Opened(b));
    AddsOn(s, b, Opened(b));
  }

  /** What one callback draws on the page can be read, every white character on black drawn for it, exactly when no word it
      draws in white is too long for a row and it is not a checkbox or radio button while white is the text's colour. */
  lemma StepLegibleIff(cfg: Config, s: Layout, cb: Callback)
    requires WellFormed(cb)
    ensures Adds(s, Step(Whole(cfg), s, cb)) <==> CallbackReadable(cfg, s, cb)
  {
    hide Adds, Readable, OnText, OnLink, OnDivider, OnField, OnLineEnd, TableFlush, OnImage, OnPartial, HasBg, Luma, Styled;
    match cb
    case Text(t, style) => TextLegibleIff(cfg, s, t, style);
    case LinkTo(caption, target, style) =>
      AddsSelf(s, s);
      LinkLegibleIff(cfg, s, s, caption, target, style);
    case Divider(ch, style) => DividerAddsAll(cfg, s, ch, style);
    case FieldOf(f, style) => FieldLegibleIff(cfg, s, f, style);
    case LineEnd(style) => LineEndLegible(Whole(cfg), s, style);
    case Table(rows, widths, style) =>
      var s1 := Deepened(s, style.depth);
      TableLegible(cfg, s1, rows, widths);
      AddsSince(s, s1, TableFlush(Whole(cfg), s1, rows, widths));
    case Image(alt, url, style) => ImageLegibleIff(cfg, s, alt, url, style);
    case Partial(url, style) => PartialLegibleIff(cfg, s, url, style);
    case Blank => AddsSelf(s, OnBlank(Whole(cfg), s));
  }
  /** Every callback of the sequence is readable at the pen it meets. */
  predicate PageReadable(cfg: Config, s: Layout, cbs: seq<Callback>)
    requires forall i :: 0 <= i < |cbs| ==> WellFormed(cbs[i])
    decreases |cbs|
  {
    cbs == [] || (CallbackReadable(cfg, s, cbs[0]) && PageReadable(cfg, Step(Whole(cfg), s, cbs[0]), cbs[1..]))
  }

  /** Then so is the page. */
  lemma {:induction false} PageIsLegible(cfg: Config, s: Layout, cbs: seq<Callback>)
    requires forall i :: 0 <= i < |cbs| ==> WellFormed(cbs[i])
    requires PageReadable(cfg, s, cbs)
    ensures Adds(s, Run(Whole(cfg), s, cbs))
    decreases |cbs|
  {
    hide Adds, Step, WellFormed, CallbackReadable;
    if cbs == [] {
      AddsSelf(s, s);
    } else {
      var a := Step(Whole(cfg), s, cbs[0]);
      StepLegibleIff(cfg, s, cbs[0]);
      PageIsLegible(cfg, a, cbs[1..]);
      AddsOn(s, a, Run(Whole(cfg), a, cbs[1..]));
    }
  }

  // ---- Text that cannot be read ---------------------------------------

  /** White characters on nothing at all. */
  predicate Invisible(log: seq<Draw>) {
    |log| >= 2 && forall i :: 0 <= i < |log| ==> log[i].shape.Glyph? && White(log[i])
  }

  lemma {:induction false} OnlyWhite(cfg: Config, s: Layout, t: seq<bv8>, k: nat, e: nat)
    requires e <= |t| && forall i :: 0 <= i < |s.log| ==> s.log[i].shape.Glyph? && White(s.log[i])
    ensures var b := LongWord(Whole(cfg), s, t, k, e, true);
      && |b.log| == |s.log| + ChunkCount(t, k, e)
      && forall i :: 0 <= i < |b.log| ==> b.log[i].shape.Glyph? && White(b.log[i])
    decreases e - k
  {
    hide Pace, ChunkAt, PutGlyph, WrapIfNeeded, Moved;
    if k < e {
      var m := WhiteGlyph(cfg, s, t, k);
      assert forall i :: 0 <= i < |s.log| ==> m.log[i] == s.log[i];
      OnlyWhite(cfg, m, t, k + SeqLen(t[k]), e);
    }
  }

  /** A page of one long word on a dark background is blank: nothing is drawn but white characters on white paper. */
  lemma LongWordIsInvisible(cfg: Config, t: seq<bv8>, style: Style)
    requires Chunked(t, 0) && t != [] && !Blankish(t[0]) && WordEnd(t, 0) == |t|
    requires HasBg(style.bg) && Luma(style.bg) < 128 && !style.literal && !style.heading && 66 < Cells(t) <= 10922
    ensures Invisible(OnText(Whole(cfg), Fresh(), t, style).log)
  {
    hide Luma, HasBg, Cells, LongWord, Styled, Pace, Indent, OnText, Invisible, ChunkCount;
    var s1 := Styled(Whole(cfg), Fresh(), t, style);
    FreshDark(cfg, t, style);
    LayoutPlaced.CellsAreChunks(t);
    OneLongToken(cfg, s1, t);
    OnlyWhite(cfg, s1, t, 0, |t|);
    IsInvisible(LongWord(Whole(cfg), s1, t, 0, |t|, true).log);
  }

  lemma IsInvisible(log: seq<Draw>)
    requires |log| >= 2 && forall i :: 0 <= i < |log| ==> log[i].shape.Glyph? && White(log[i])
    ensures Invisible(log)
  {
  }

  lemma FreshDark(cfg: Config, t: seq<bv8>, style: Style)
    requires Chunked(t, 0) && HasBg(style.bg) && Luma(style.bg) < 128 && !style.literal && !style.heading && 66 < Cells(t) <= 10922
    ensures var s1 := Styled(Whole(cfg), Fresh(), t, style);
      && s1.log == [] && Pace(s1) == 6 && s1.pen.x == Indent(s1) && !s1.pen.literal && s1.pen.invert
      && OnText(Whole(cfg), Fresh(), t, style) == Tokens(Whole(cfg), s1, t, 0, true)
  {
    hide Luma, HasBg, Cells, Tokens, AllIn;
  }

  lemma OneLongToken(cfg: Config, s: Layout, t: seq<bv8>)
    requires Chunked(t, 0) && t != [] && !Blankish(t[0]) && WordEnd(t, 0) == |t|
    requires Pace(s) == 6 && 66 < ChunkCount(t, 0, |t|) <= 10922
    ensures Tokens(Whole(cfg), s, t, 0, true) == LongWord(Whole(cfg), s, t, 0, |t|, true)
  {
    hide LongWord, Word, Lead, Newline, ChunkCount, Pace;
    TokenBounds(t, 0);
    assert SkipBlankish(t, 0) == 0;
    var b := Token(Whole(cfg), s, t, 0, 0, |t|, true);
    assert Tokens(Whole(cfg), b, t, |t|, true) == b;
  }

  /** A radio button or checkbox after text on a dark background is white on white paper, too. */
  lemma MarkAfterDarkText(cfg: Config, s: Layout, t: seq<bv8>, style: Style, f: Field, fieldStyle: Style)
    requires Chunked(t, 0) && HasBg(style.bg) && Luma(style.bg) < 128 && f.kind != TextField && Chunked(f.caption, 0)
    ensures !Adds(OnText(Whole(cfg), s, t, style), OnField(Whole(cfg), OnText(Whole(cfg), s, t, style), f, fieldStyle))
  {
    hide Adds, EmitRun, OnField, HasBg, Luma, Cells, AllIn;
    var s1 := Styled(Whole(cfg), s, t, style);
    RunInvert(Whole(cfg), s1, t, s1.pen.invert);
    FieldLegibleIff(cfg, OnText(Whole(cfg), s, t, style), f, fieldStyle);
  }
}
