// A run of text loses nothing, and which of its tokens can leave the margins.
module LayoutText {
  import opened Geometry
  import opened Utf8
  import opened Chunks
  import opened TableFit
  import opened LayoutTypes
  import opened LayoutSpec

  // ---- Nothing is lost ------------------------------------------------

  predicate BlankChunk(bytes: seq<bv8>) {
    |bytes| == 1 && Blankish(bytes[0])
  }

  /** The glyphs drawn, in order, blanks aside. */
  function Inked(log: seq<Draw>): seq<seq<bv8>>
    decreases |log|
  {
    if log == [] then []
    else
      var d := log[|log| - 1].shape;
      Inked(log[..|log| - 1]) + if d.Glyph? && !BlankChunk(d.bytes) then [d.bytes] else []
  }

  /** The codepoints of t[k..e], blanks aside. */
  function Codepoints(t: seq<bv8>, k: nat, e: nat): seq<seq<bv8>>
    requires e <= |t|
    decreases e - k
  {
    if k < e then OneChunk(t, k) + Codepoints(t, k + SeqLen(t[k]), e) else []
  }

  function OneChunk(t: seq<bv8>, k: nat): seq<seq<bv8>>
    requires k < |t|
  {
    if BlankChunk(ChunkAt(t, k)) then [] else [ChunkAt(t, k)]
  }

  lemma InkedSnoc(log: seq<Draw>, d: Draw)
    ensures Inked(log + [d]) == Inked(log) + if d.shape.Glyph? && !BlankChunk(d.shape.bytes) then [d.shape.bytes] else []
  {
    assert (log + [d])[..|log|] == log;
  }

  lemma PutInks(cfg: Config, s: Layout, when: bool, shape: Shape)
    ensures shape.Glyph? ==>
      Inked(Put(Whole(cfg), s, shape).log) == Inked(s.log) + if BlankChunk(shape.bytes) then [] else [shape.bytes]
    ensures !shape.Glyph? ==> Inked(PutIf(Whole(cfg), s, when, shape).log) == Inked(s.log)
    ensures !shape.Glyph? ==> Inked(Put(Whole(cfg), s, shape).log) == Inked(s.log)
  {
    hide Inked, BlankChunk;
    InkedSnoc(s.log, Draw(s.pen.y, RowHeight(Whole(cfg), s), shape));
    assert Inked(s.log) + [] == Inked(s.log);
  }

  lemma PaintInks(cfg: Config, s: Layout, x: int, w: int, luma: nat)
    ensures Inked(PaintBg(Whole(cfg), s, x, w, luma).log) == Inked(s.log)
  {
    hide Inked;
    PutInks(cfg, s, true, Texture(x, w, RowHeight(Whole(cfg), s), luma));
    PutInks(cfg, s, luma < 128, Fill(x, w, RowHeight(Whole(cfg), s), true));
  }

  lemma CellInks(cfg: Config, s: Layout, bytes: seq<bv8>, invert: bool)
    ensures Inked(CellOf(Whole(cfg), s, bytes, invert).log) == Inked(s.log) + if BlankChunk(bytes) then [] else [bytes]
  {
    hide Inked, PaintBg;
    var g := Whole(cfg);
    var blank := |bytes| == 1 && Blankish(bytes[0]);
    PaintInks(cfg, s, s.pen.x, Pace(s), s.pen.bgLuma);
    PutInks(cfg, s, true, Fill(s.pen.x, Pace(s), RowHeight(g, s), invert));
    PutInks(cfg, s, invert, Fill(s.pen.x, Pace(s), RowHeight(g, s), true));
    var s1 :=
      if s.pen.hasBg then (if blank then PaintBg(g, s, s.pen.x, Pace(s), s.pen.bgLuma) else Put(g, s, Fill(s.pen.x, Pace(s), RowHeight(g, s), invert)))
      else PutIf(g, s, invert, Fill(s.pen.x, Pace(s), RowHeight(g, s), true));
    PutInks(cfg, s1, true, Glyph(FaceOf(g, s1, bytes), s1.pen.x, bytes, !invert));
    var s2 := if blank then s1 else PutGlyph(g, s1, bytes, invert);
    PutInks(cfg, s2, s.pen.underline, Rule(s.pen.x, RowHeight(g, s) - 2, Pace(s), !invert));
    assert Inked(s.log) + [] == Inked(s.log);
  }

  lemma GlyphInks(cfg: Config, s: Layout, bytes: seq<bv8>, invert: bool)
    ensures Inked(PutGlyph(Whole(cfg), s, bytes, invert).log) == Inked(s.log) + if BlankChunk(bytes) then [] else [bytes]
  {
    PutInks(cfg, s, true, Glyph(FaceOf(Whole(cfg), s, bytes), s.pen.x, bytes, !invert));
  }

  lemma MovedInks(s: Layout, w: nat)
    ensures Moved(s, w).log == s.log
  {
  }

  lemma WrapInks(cfg: Config, s: Layout, w: nat)
    ensures WrapIfNeeded(Whole(cfg), s, w).log == s.log
  {
  }

  lemma Regroup(a: seq<seq<bv8>>, b: seq<seq<bv8>>, c: seq<seq<bv8>>)
    ensures (a + b) + c == a + (b + c)
  {
  }

  lemma {:induction false} WordInks(cfg: Config, s: Layout, t: seq<bv8>, k: nat, e: nat, invert: bool)
    requires e <= |t|
    ensures Inked(Word(Whole(cfg), s, t, k, e, invert).log) == Inked(s.log) + Codepoints(t, k, e)
    decreases e - k
  {
    hide Inked, CellOf, BlankChunk, ChunkAt, Moved, Pace;
    if k < e {
      CellInks(cfg, s, ChunkAt(t, k), invert);
      MovedInks(CellOf(Whole(cfg), s, ChunkAt(t, k), invert), Pace(s));
      Regroup(Inked(s.log), OneChunk(t, k), Codepoints(t, k + SeqLen(t[k]), e));
      WordInks(cfg, Moved(CellOf(Whole(cfg), s, ChunkAt(t, k), invert), Pace(s)), t, k + SeqLen(t[k]), e, invert);
    } else {
      assert Inked(s.log) + [] == Inked(s.log);
    }
  }

  lemma {:induction false} LongWordInks(cfg: Config, s: Layout, t: seq<bv8>, k: nat, e: nat, invert: bool)
    requires e <= |t|
    ensures Inked(LongWord(Whole(cfg), s, t, k, e, invert).log) == Inked(s.log) + Codepoints(t, k, e)
    decreases e - k
  {
    hide Inked, BlankChunk, PutGlyph, ChunkAt, Moved, Pace, WrapIfNeeded;
    if k < e {
      var s1 := WrapIfNeeded(Whole(cfg), s, Pace(s));
      WrapInks(cfg, s, Pace(s));
      GlyphInks(cfg, s1, ChunkAt(t, k), invert);
      MovedInks(PutGlyph(Whole(cfg), s1, ChunkAt(t, k), invert), Pace(s1));
      Regroup(Inked(s.log), OneChunk(t, k), Codepoints(t, k + SeqLen(t[k]), e));
      LongWordInks(cfg, Moved(PutGlyph(Whole(cfg), s1, ChunkAt(t, k), invert), Pace(s1)), t, k + SeqLen(t[k]), e, invert);
    } else {
      assert Inked(s.log) + [] == Inked(s.log);
    }
  }

  lemma LeadInks(cfg: Config, s: Layout, leadW: nat, invert: bool)
    ensures Inked(Lead(Whole(cfg), s, leadW, invert).log) == Inked(s.log)
  {
    hide Inked, PaintBg, PutIf;
    var g := Whole(cfg);
    PaintInks(cfg, s, s.pen.x, leadW, s.pen.bgLuma);
    var s1 := if s.pen.hasBg then PaintBg(g, s, s.pen.x, leadW, s.pen.bgLuma) else s;
    PutInks(cfg, s1, s.pen.underline, Rule(s.pen.x, RowHeight(g, s) - 2, leadW, !invert));
  }

  lemma {:induction false} BlanksDropOut(t: seq<bv8>, i: nat, sp: nat, e: nat)
    requires i <= sp <= e <= |t| && forall j :: i <= j < sp ==> Blankish(t[j])
    ensures Codepoints(t, i, e) == Codepoints(t, sp, e)
    decreases sp - i
  {
    if i < sp {
      assert SeqLen(t[i]) == 1;
      BlanksDropOut(t, i + 1, sp, e);
    }
  }

  lemma TokenInks(cfg: Config, s: Layout, t: seq<bv8>, i: nat, sp: nat, e: nat, invert: bool)
    requires i <= sp <= e <= |t| && forall j :: i <= j < sp ==> Blankish(t[j])
    ensures Inked(Token(Whole(cfg), s, t, i, sp, e, invert).log) == Inked(s.log) + Codepoints(t, i, e)
  {
    hide Inked, Codepoints, Word, LongWord, Lead, RowHeight;
    BlanksDropOut(t, i, sp, e);
    LongWordInks(cfg, s, t, i, e, invert);
    LeadInks(cfg, s, LeadWidth(s, i, sp), invert);
    WordInks(cfg, Newline(Whole(cfg), s), t, sp, e, invert);
    WordInks(cfg, Lead(Whole(cfg), s, LeadWidth(s, i, sp), invert), t, sp, e, invert);
    WordInks(cfg, s, t, sp, e, invert);
  }

  lemma {:induction false} CodepointsSplit(t: seq<bv8>, i: nat, m: nat, e: nat)
    requires i <= m <= e <= |t| && Reaches(t, i, m)
    ensures Codepoints(t, i, e) == Codepoints(t, i, m) + Codepoints(t, m, e)
    decreases m - i
  {
    hide OneChunk;
    if i < m {
      CodepointsSplit(t, i + SeqLen(t[i]), m, e);
      Regroup(OneChunk(t, i), Codepoints(t, i + SeqLen(t[i]), m), Codepoints(t, m, e));
    } else {
      assert Codepoints(t, i, m) == [];
      assert [] + Codepoints(t, m, e) == Codepoints(t, m, e);
    }
  }

  lemma {:induction false} TokensInk(cfg: Config, s: Layout, t: seq<bv8>, i: nat, invert: bool)
    requires Chunked(t, i)
    ensures Inked(Tokens(Whole(cfg), s, t, i, invert).log) == Inked(s.log) + Codepoints(t, i, |t|)
    decreases |t| - i
  {
    hide Inked, Codepoints, Token;
    if i < |t| {
      TokenReach(t, i);
      var sp := SkipBlankish(t, i);
      var e := WordEnd(t, sp);
      TokenInks(cfg, s, t, i, sp, e, invert);
      CodepointsSplit(t, i, e, |t|);
      TokensInk(cfg, Token(Whole(cfg), s, t, i, sp, e, invert), t, e, invert);
    } else {
      NoCodepoints(t, i);
      assert Inked(s.log) + [] == Inked(s.log);
    }
  }

  lemma NoCodepoints(t: seq<bv8>, i: nat)
    requires i >= |t|
    ensures Codepoints(t, i, |t|) == []
  {
  }

  /** Wrapping and hard breaking lose nothing: a run of prose is drawn codepoint by codepoint, each
      non-space exactly once, in order, whatever the pen and the face. */
  lemma RunLosesNothing(cfg: Config, s: Layout, t: seq<bv8>, invert: bool)
    requires Chunked(t, 0) && !s.pen.literal
    ensures Inked(EmitRun(Whole(cfg), s, t, invert).log) == Inked(s.log) + Codepoints(t, 0, |t|)
  {
    hide Inked, Codepoints, Tokens;
    TokensInk(cfg, PullBack(s), t, 0, invert);
  }

  // ---- Margins --------------------------------------------------------

  /** The cell of a glyph lies between the left edge and the right margin; other draws are not text. */
  predicate Inside(d: Draw, left: nat) {
    d.shape.Glyph? ==> left <= d.shape.x && d.shape.x + FaceWidth(d.shape.face) <= RIGHT
  }

  /** `b` continues `a`, and every glyph it adds is inside. */
  predicate AddsInside(a: Layout, b: Layout, left: nat) {
    |a.log| <= |b.log| && b.log[..|a.log|] == a.log && forall i :: |a.log| <= i < |b.log| ==> Inside(b.log[i], left)
  }

  predicate Continues(a: Layout, b: Layout) {
    |a.log| <= |b.log| && b.log[..|a.log|] == a.log
  }

  predicate SameRun(a: Layout, b: Layout) {
    b.pen == a.pen.(y := b.pen.y, x := b.pen.x, rowOpen := b.pen.rowOpen)
  }

  lemma AddsTrans(a: Layout, b: Layout, c: Layout, left: nat)
    requires AddsInside(a, b, left) && AddsInside(b, c, left)
    ensures AddsInside(a, c, left)
  {
    assert c.log[..|a.log|] == c.log[..|b.log|][..|a.log|];
    forall i | |a.log| <= i < |c.log|
      ensures Inside(c.log[i], left)
    {
      if i < |b.log| {
        assert c.log[..|b.log|][i] == b.log[i];
      }
    }
  }

  lemma ContinuesTrans(a: Layout, b: Layout, c: Layout)
    requires Continues(a, b) && Continues(b, c)
    ensures Continues(a, c)
  {
    assert c.log[..|a.log|] == c.log[..|b.log|][..|a.log|];
  }

  lemma FaceKeepsPace(g: Page, s: Layout, bytes: seq<bv8>)
    ensures FaceWidth(FaceOf(g, s, bytes)) == Pace(s)
    ensures Pace(s) in {6, 7, 8, 12}
  {
  }

  lemma PutAdds(cfg: Config, s: Layout, when: bool, shape: Shape, left: nat)
    ensures Continues(s, Put(Whole(cfg), s, shape)) && Continues(s, PutIf(Whole(cfg), s, when, shape))
    ensures Put(Whole(cfg), s, shape).pen == s.pen
    ensures !shape.Glyph? ==> AddsInside(s, Put(Whole(cfg), s, shape), left) && AddsInside(s, PutIf(Whole(cfg), s, when, shape), left)
  {
  }

  lemma GlyphAdds(cfg: Config, s: Layout, bytes: seq<bv8>, invert: bool, left: nat)
    ensures var b := PutGlyph(Whole(cfg), s, bytes, invert);
      && Continues(s, b) && b.pen == s.pen
      && |b.log| == |s.log| + 1
      && (Inside(b.log[|s.log|], left) <==> left <= s.pen.x && s.pen.x + Pace(s) <= RIGHT)
      && (left <= s.pen.x && s.pen.x + Pace(s) <= RIGHT ==> AddsInside(s, b, left))
  {
    FaceKeepsPace(Whole(cfg), s, bytes);
  }

  lemma CellAdds(cfg: Config, s: Layout, bytes: seq<bv8>, invert: bool, left: nat)
    ensures var b := CellOf(Whole(cfg), s, bytes, invert);
      && Continues(s, b) && b.pen == s.pen
      && (left <= s.pen.x && s.pen.x + Pace(s) <= RIGHT ==> AddsInside(s, b, left))
      && (!BlankChunk(bytes) && s.pen.x + Pace(s) > RIGHT ==> exists i :: |s.log| <= i < |b.log| && !Inside(b.log[i], left))
  {
    hide Put, PutIf, PaintBg, PutGlyph, AddsInside, Continues, Pace, RowHeight, Inside;
    var g := Whole(cfg);
    var blank := |bytes| == 1 && Blankish(bytes[0]);
    var s1 := Ground(g, s, blank, invert);
    GroundAdds(cfg, s, blank, invert, left);
    GlyphAdds(cfg, s1, bytes, invert, left);
    var s2 := if blank then s1 else PutGlyph(g, s1, bytes, invert);
    var rule := Rule(s.pen.x, RowHeight(g, s) - 2, Pace(s), !invert);
    PutAdds(cfg, s2, s.pen.underline, rule, left);
    var s3 := PutIf(g, s2, s.pen.underline, rule);
    PaceOfPen(s, s1);
    SelfAdds(s1, left);
    CellChain(s, s1, s2, s3, left);
    if !BlankChunk(bytes) && s.pen.x + Pace(s) > RIGHT {
      KeepsEntry(s2, s3, |s1.log|);
      GrowsFrom(s, s1);
      assert !Inside(s3.log[|s1.log|], left);
    }
    CellPen(cfg, s, bytes, invert);
  }

  lemma CellPen(cfg: Config, s: Layout, bytes: seq<bv8>, invert: bool)
    ensures CellOf(Whole(cfg), s, bytes, invert).pen == s.pen
  {
  }

  lemma PaceOfPen(a: Layout, b: Layout)
    requires a.pen == b.pen
    ensures Pace(a) == Pace(b)
  {
  }

  lemma SelfAdds(s: Layout, left: nat)
    ensures AddsInside(s, s, left) && Continues(s, s)
  {
  }

  lemma GrowsFrom(a: Layout, b: Layout)
    requires Continues(a, b)
    ensures |a.log| <= |b.log|
  {
  }

  lemma KeepsEntry(a: Layout, b: Layout, i: nat)
    requires Continues(a, b) && i < |a.log|
    ensures i < |b.log| && b.log[i] == a.log[i]
  {
    assert b.log[..|a.log|][i] == b.log[i];
  }

  lemma CellChain(a: Layout, b: Layout, c: Layout, d: Layout, left: nat)
    requires Continues(a, b) && Continues(b, c) && Continues(c, d)
    ensures Continues(a, d)
    ensures AddsInside(a, b, left) && AddsInside(b, c, left) && AddsInside(c, d, left) ==> AddsInside(a, d, left)
  {
    ContinuesTrans(a, b, c);
    ContinuesTrans(a, c, d);
    if AddsInside(a, b, left) && AddsInside(b, c, left) && AddsInside(c, d, left) {
      AddsTrans(a, b, c, left);
      AddsTrans(a, c, d, left);
    }
  }

  // The background laid under a cell before its glyph.
  function Ground(g: Page, s: Layout, blank: bool, invert: bool): Layout {
    if s.pen.hasBg then
      if blank then PaintBg(g, s, s.pen.x, Pace(s), s.pen.bgLuma)
      else Put(g, s, Fill(s.pen.x, Pace(s), RowHeight(g, s), invert))
    else PutIf(g, s, invert, Fill(s.pen.x, Pace(s), RowHeight(g, s), true))
  }

  lemma GroundAdds(cfg: Config, s: Layout, blank: bool, invert: bool, left: nat)
    ensures AddsInside(s, Ground(Whole(cfg), s, blank, invert), left)
    ensures Continues(s, Ground(Whole(cfg), s, blank, invert)) && Ground(Whole(cfg), s, blank, invert).pen == s.pen
  {
    var g := Whole(cfg);
    PaintAdds(cfg, s, s.pen.x, Pace(s), s.pen.bgLuma, left);
    PutAdds(cfg, s, invert, Fill(s.pen.x, Pace(s), RowHeight(g, s), invert), left);
    PutAdds(cfg, s, invert, Fill(s.pen.x, Pace(s), RowHeight(g, s), true), left);
  }

  lemma PaintAdds(cfg: Config, s: Layout, x: int, w: int, luma: nat, left: nat)
    ensures AddsInside(s, PaintBg(Whole(cfg), s, x, w, luma), left)
    ensures Continues(s, PaintBg(Whole(cfg), s, x, w, luma)) && PaintBg(Whole(cfg), s, x, w, luma).pen == s.pen
  {
  }

  // No chunk of t[k..e] is a blank.
  predicate NoBlanks(t: seq<bv8>, k: nat, e: nat)
    requires e <= |t|
    decreases e - k
  {
    k < e ==> !BlankChunk(ChunkAt(t, k)) && NoBlanks(t, k + SeqLen(t[k]), e)
  }

  lemma {:induction false} WordHasNoBlanks(t: seq<bv8>, sp: nat)
    requires Chunked(t, sp)
    ensures WordEnd(t, sp) <= |t| && NoBlanks(t, sp, WordEnd(t, sp))
    decreases |t| - sp
  {
    WordEndBounds(t, sp);
    if sp < |t| && !Blankish(t[sp]) {
      WordHasNoBlanks(t, sp + SeqLen(t[sp]));
      WordEndBounds(t, sp + SeqLen(t[sp]));
      assert ChunkAt(t, sp)[0] == t[sp];
    }
  }

  lemma RunKeeps(a: Layout, b: Layout)
    requires SameRun(a, b)
    ensures Indent(b) == Indent(a) && Pace(b) == Pace(a)
  {
  }

  lemma RunTrans(a: Layout, b: Layout, c: Layout)
    requires SameRun(a, b) && SameRun(b, c)
    ensures SameRun(a, c)
  {
  }

  lemma WordStep(cfg: Config, s: Layout, bytes: seq<bv8>, invert: bool, left: nat) returns (b: Layout)
    requires s.pen.x + Pace(s) <= 0xFFFF
    ensures b == Moved(CellOf(Whole(cfg), s, bytes, invert), Pace(s))
    ensures Continues(s, b) && SameRun(s, b) && b.pen.x == s.pen.x + Pace(s)
    ensures left <= s.pen.x && s.pen.x + Pace(s) <= RIGHT ==> AddsInside(s, b, left)
    ensures !BlankChunk(bytes) && s.pen.x + Pace(s) > RIGHT ==>
      exists i :: |s.log| <= i < |b.log| && !Inside(b.log[i], left)
  {
    hide AddsInside, CellOf, Inside, Continues, Pace;
    var c := CellOf(Whole(cfg), s, bytes, invert);
    CellAdds(cfg, s, bytes, invert, left);
    b := Moved(c, Pace(s));
    MovedAdds(s, c, Pace(s), left);
  }

  lemma {:induction false} WordInside(cfg: Config, s: Layout, t: seq<bv8>, k: nat, e: nat, invert: bool, left: nat)
    requires e <= |t| && left <= s.pen.x && s.pen.x + ChunkCount(t, k, e) * Pace(s) <= RIGHT
    ensures var b := Word(Whole(cfg), s, t, k, e, invert);
      AddsInside(s, b, left) && SameRun(s, b) && b.pen.x == s.pen.x + ChunkCount(t, k, e) * Pace(s)
    decreases e - k
  {
    hide AddsInside, CellOf, Inside, Moved, Pace, SameRun;
    SelfAdds(s, left);
    SelfRun(s);
    if k < e {
      CountStep(t, k, e, Pace(s));
      var s1 := WordStep(cfg, s, ChunkAt(t, k), invert, left);
      RunKeeps(s, s1);
      WordInside(cfg, s1, t, k + SeqLen(t[k]), e, invert, left);
      AddsTrans(s, s1, Word(Whole(cfg), s1, t, k + SeqLen(t[k]), e, invert), left);
      RunTrans(s, s1, Word(Whole(cfg), s1, t, k + SeqLen(t[k]), e, invert));
    } else {
      NoWordNoWidth(s, t, k, e);
    }
  }

  lemma SelfRun(s: Layout)
    ensures SameRun(s, s)
  {
  }

  lemma CountStep(t: seq<bv8>, k: nat, e: nat, p: nat)
    requires k < e <= |t|
    ensures ChunkCount(t, k, e) * p == p + ChunkCount(t, k + SeqLen(t[k]), e) * p
    ensures ChunkCount(t, k + SeqLen(t[k]), e) * p >= 0
  {
  }

  lemma MovedAdds(a: Layout, b: Layout, w: nat, left: nat)
    ensures AddsInside(a, b, left) ==> AddsInside(a, Moved(b, w), left)
    ensures Continues(a, b) ==> Continues(a, Moved(b, w))
  {
  }

  lemma {:induction false} WordOutside(cfg: Config, s: Layout, t: seq<bv8>, k: nat, e: nat, invert: bool, left: nat)
    requires k < e <= |t| && NoBlanks(t, k, e)
    requires RIGHT < s.pen.x + ChunkCount(t, k, e) * Pace(s) <= 0xFFFF
    ensures var b := Word(Whole(cfg), s, t, k, e, invert);
      Continues(s, b) && exists i :: |s.log| <= i < |b.log| && !Inside(b.log[i], left)
    decreases e - k
  {
    hide CellOf, Inside, Continues, Moved, Pace, SameRun, BlankChunk;
    CountStep(t, k, e, Pace(s));
    var s1 := WordStep(cfg, s, ChunkAt(t, k), invert, left);
    RunKeeps(s, s1);
    var k' := k + SeqLen(t[k]);
    var b := Word(Whole(cfg), s1, t, k', e, invert);
    GrowsFrom(s, s1);
    if k' < e {
      WordOutside(cfg, s1, t, k', e, invert, left);
      ContinuesTrans(s, s1, b);
    } else {
      NoWordNoWidth(s, t, k', e);
    }
  }

  lemma LongStep(cfg: Config, s: Layout, bytes: seq<bv8>, invert: bool) returns (b: Layout)
    requires Indent(s) <= s.pen.x
    ensures var s1 := WrapIfNeeded(Whole(cfg), s, Pace(s)); b == Moved(PutGlyph(Whole(cfg), s1, bytes, invert), Pace(s1))
    ensures AddsInside(s, b, Indent(s)) && SameRun(s, b) && Indent(s) <= b.pen.x <= RIGHT
  {
    hide AddsInside, PutGlyph, Inside, WrapIfNeeded, Pace;
    var s1 := WrapIfNeeded(Whole(cfg), s, Pace(s));
    WrapFits(Whole(cfg), s);
    SameLog(s, s1, Indent(s));
    var c := PutGlyph(Whole(cfg), s1, bytes, invert);
    GlyphAdds(cfg, s1, bytes, invert, Indent(s));
    b := Moved(c, Pace(s1));
    MovedAdds(s1, c, Pace(s1), Indent(s));
    AddsTrans(s, s1, b, Indent(s));
  }

  // After the wrap test one more glyph fits.
  lemma WrapFits(g: Page, s: Layout)
    requires Indent(s) <= s.pen.x
    ensures var s1 := WrapIfNeeded(g, s, Pace(s));
      SameRun(s, s1) && s1.log == s.log && Pace(s1) == Pace(s) && Indent(s) <= s1.pen.x && s1.pen.x + Pace(s) <= RIGHT
  {
    FaceKeepsPace(g, s, []);
  }

  lemma {:induction false} LongWordInside(cfg: Config, s: Layout, t: seq<bv8>, k: nat, e: nat, invert: bool)
    requires e <= |t| && Indent(s) <= s.pen.x
    ensures var b := LongWord(Whole(cfg), s, t, k, e, invert);
      AddsInside(s, b, Indent(s)) && SameRun(s, b) && Indent(s) <= b.pen.x && (k < e ==> b.pen.x <= RIGHT)
    decreases e - k
  {
    hide AddsInside, PutGlyph, Inside, Moved, WrapIfNeeded, Pace, Indent, SameRun;
    SelfAdds(s, Indent(s));
    SelfRun(s);
    if k < e {
      var s2 := LongStep(cfg, s, ChunkAt(t, k), invert);
      RunKeeps(s, s2);
      LongWordInside(cfg, s2, t, k + SeqLen(t[k]), e, invert);
      RunTrans(s, s2, LongWord(Whole(cfg), s2, t, k + SeqLen(t[k]), e, invert));
      AddsTrans(s, s2, LongWord(Whole(cfg), s2, t, k + SeqLen(t[k]), e, invert), Indent(s));
    }
  }

  lemma SameLog(a: Layout, b: Layout, left: nat)
    requires b.log == a.log
    ensures AddsInside(a, b, left) && Continues(a, b)
  {
  }

  lemma LeadAdds(cfg: Config, s: Layout, leadW: nat, invert: bool, left: nat)
    ensures var b := Lead(Whole(cfg), s, leadW, invert);
      AddsInside(s, b, left) && Continues(s, b) && b.pen == s.pen.(x := Wrap16(s.pen.x + leadW), rowOpen := true)
  {
    hide AddsInside, Continues, PaintBg, PutIf;
    var g := Whole(cfg);
    PaintAdds(cfg, s, s.pen.x, leadW, s.pen.bgLuma, left);
    SelfAdds(s, left);
    var s1 := if s.pen.hasBg then PaintBg(g, s, s.pen.x, leadW, s.pen.bgLuma) else s;
    var rule := Rule(s.pen.x, RowHeight(g, s) - 2, leadW, !invert);
    PutAdds(cfg, s1, s.pen.underline, rule, left);
    PutIfPen(cfg, s1, s.pen.underline, rule);
    var s2 := PutIf(g, s1, s.pen.underline, rule);
    AddsTrans(s, s1, s2, left);
    ContinuesTrans(s, s1, s2);
    MovedAdds(s, s2, leadW, left);
  }

  lemma PutIfPen(cfg: Config, s: Layout, when: bool, shape: Shape)
    ensures PutIf(Whole(cfg), s, when, shape).pen == s.pen
  {
  }

  /** Spaces and word of one token, in pixels, before the sixteen-bit cut. */
  function TokenWidth(s: Layout, t: seq<bv8>, i: nat, sp: nat, e: nat): nat
    requires i <= sp <= e <= |t|
  {
    (sp - i) * Pace(s) + ChunkCount(t, sp, e) * Pace(s)
  }

  predicate ShortToken(s: Layout, t: seq<bv8>, i: nat, sp: nat, e: nat)
    requires i <= sp <= e <= |t|
  {
    TokenWidth(s, t, i, sp, e) <= 0xFFFF - RIGHT
  }

  /** The one way out of the margins: a token met at the left edge whose word fits a row but whose
      spaces and word together do not. It is not wrapped, because the pen is not past the edge. */
  predicate Overhangs(s: Layout, t: seq<bv8>, i: nat, sp: nat, e: nat)
    requires i <= sp <= e <= |t|
  {
    && sp < e && s.pen.x == Indent(s)
    && ChunkCount(t, sp, e) * Pace(s) <= Usable(s) < TokenWidth(s, t, i, sp, e)
  }

  lemma ShortWidths(s: Layout, t: seq<bv8>, i: nat, sp: nat, e: nat)
    requires i <= sp <= e <= |t| && ShortToken(s, t, i, sp, e)
    ensures LeadWidth(s, i, sp) == (sp - i) * Pace(s) && WordWidth(s, t, sp, e) == ChunkCount(t, sp, e) * Pace(s)
    ensures LeadWidth(s, i, sp) + WordWidth(s, t, sp, e) == TokenWidth(s, t, i, sp, e) <= 0xFFFF - RIGHT
    ensures Pace(s) >= 6 && (LeadWidth(s, i, sp) == 0 <==> i == sp)
  {
    hide Pace, ChunkCount;
    FaceKeepsPace(Page(Config(0, false, false, false, (f, c) => false), All), s, []);
    var a, b := (sp - i) * Pace(s), ChunkCount(t, sp, e) * Pace(s);
    assert a >= 0 && b >= 0;
    assert i < sp ==> a >= Pace(s);
  }

  lemma WrappedInside(cfg: Config, s: Layout, t: seq<bv8>, sp: nat, e: nat, invert: bool)
    requires sp <= e <= |t| && ChunkCount(t, sp, e) * Pace(s) <= Usable(s)
    ensures var b := Word(Whole(cfg), Newline(Whole(cfg), s), t, sp, e, invert);
      AddsInside(s, b, Indent(s)) && SameRun(s, b) && Indent(s) <= b.pen.x
  {
    hide AddsInside, Pace, ChunkCount, Newline, Word;
    var g := Whole(cfg);
    var n := Newline(g, s);
    NewlineSame(g, s);
    SameLog(s, n, Indent(s));
    WordInside(cfg, n, t, sp, e, invert, Indent(s));
    AddsTrans(s, n, Word(g, n, t, sp, e, invert), Indent(s));
  }

  lemma InPlace(cfg: Config, s: Layout, t: seq<bv8>, sp: nat, e: nat, leadW: nat, invert: bool)
    requires sp <= e <= |t| && NoBlanks(t, sp, e) && Indent(s) <= s.pen.x
    requires s.pen.x + leadW + ChunkCount(t, sp, e) * Pace(s) <= 0xFFFF
    ensures var s1 := if leadW != 0 then Lead(Whole(cfg), s, leadW, invert) else s;
      var b := Word(Whole(cfg), s1, t, sp, e, invert);
      && (AddsInside(s, b, Indent(s)) <==> sp == e || s.pen.x + leadW + ChunkCount(t, sp, e) * Pace(s) <= RIGHT)
      && SameRun(s, b) && Indent(s) <= b.pen.x
  {
    hide AddsInside, Pace, ChunkCount, Lead, Word, Inside;
    var g := Whole(cfg);
    assert ChunkCount(t, sp, e) * Pace(s) >= 0;
    LeadAdds(cfg, s, leadW, invert, Indent(s));
    SelfAdds(s, Indent(s));
    var s1 := if leadW != 0 then Lead(g, s, leadW, invert) else s;
    LeadSame(s, s1);
    if s.pen.x + leadW + ChunkCount(t, sp, e) * Pace(s) <= RIGHT {
      WordInside(cfg, s1, t, sp, e, invert, Indent(s));
      AddsTrans(s, s1, Word(g, s1, t, sp, e, invert), Indent(s));
    } else {
      OverhangOut(cfg, s, s1, t, sp, e, invert);
    }
  }

  /** Exactly when a token's glyphs all lie between the left edge and the right margin, from any pen at
      or past the left edge. */
  lemma TokenInsideIff(cfg: Config, s: Layout, t: seq<bv8>, i: nat, invert: bool)
    requires Chunked(t, i) && i < |t| && Indent(s) <= s.pen.x
    requires var sp := SkipBlankish(t, i); var e := WordEnd(t, sp); i <= sp <= e <= |t| && ShortToken(s, t, i, sp, e)
    ensures var sp := SkipBlankish(t, i); var e := WordEnd(t, sp);
      AddsInside(s, Token(Whole(cfg), s, t, i, sp, e, invert), Indent(s)) <==> !Overhangs(s, t, i, sp, e)
    ensures var sp := SkipBlankish(t, i); var e := WordEnd(t, sp);
      var b := Token(Whole(cfg), s, t, i, sp, e, invert);
      SameRun(s, b) && Indent(s) <= b.pen.x
  {
    hide AddsInside, Inside, Word, LongWord, Lead, LeadWidth, WordWidth, ChunkCount, Chunked, SkipBlankish, WordEnd, TokenWidth, Pace, Newline, SameRun;
    var sp := SkipBlankish(t, i);
    var e := WordEnd(t, sp);
    ShortWidths(s, t, i, sp, e);
    TokenReach(t, i);
    TokenBounds(t, i);
    WordHasNoBlanks(t, sp);
    var leadW, wordW := LeadWidth(s, i, sp), WordWidth(s, t, sp, e);
    NoWordNoWidth(s, t, sp, e);
    if wordW > Usable(s) {
      LongWordInside(cfg, s, t, i, e, invert);
    } else if s.pen.x + leadW + wordW > RIGHT && s.pen.x > Indent(s) {
      WrappedInside(cfg, s, t, sp, e, invert);
    } else {
      InPlace(cfg, s, t, sp, e, leadW, invert);
    }
  }

  lemma NoWordNoWidth(s: Layout, t: seq<bv8>, sp: nat, e: nat)
    requires e <= |t|
    ensures sp >= e ==> ChunkCount(t, sp, e) * Pace(s) == 0
  {
  }

  lemma NewlineSame(g: Page, s: Layout)
    ensures SameRun(s, Newline(g, s)) && Pace(Newline(g, s)) == Pace(s) && Indent(Newline(g, s)) == Indent(s)
    ensures Newline(g, s).log == s.log && Newline(g, s).pen.x == Indent(s)
  {
  }

  lemma LeadSame(s: Layout, s1: Layout)
    requires s1.pen == s.pen.(x := s1.pen.x, rowOpen := s1.pen.rowOpen)
    ensures SameRun(s, s1) && Pace(s1) == Pace(s) && Indent(s1) == Indent(s)
  {
  }

  // From the left edge, spaces and word beyond the usable width: either there is no word, or it shows.
  lemma OverhangOut(cfg: Config, s: Layout, s1: Layout, t: seq<bv8>, sp: nat, e: nat, invert: bool)
    requires sp <= e <= |t| && NoBlanks(t, sp, e) && AddsInside(s, s1, Indent(s)) && SameRun(s, s1) && Pace(s1) == Pace(s)
    requires Indent(s) <= s1.pen.x && RIGHT < s1.pen.x + ChunkCount(t, sp, e) * Pace(s) <= 0xFFFF
    ensures var b := Word(Whole(cfg), s1, t, sp, e, invert);
      && (AddsInside(s, b, Indent(s)) <==> sp == e)
      && SameRun(s, b) && Indent(s) <= b.pen.x
  {
    hide CellOf, ChunkCount;
    WordPen(cfg, s1, t, sp, e, invert);
    if sp < e {
      WordOutside(cfg, s1, t, sp, e, invert, Indent(s));
    } else {
      assert Word(Whole(cfg), s1, t, sp, e, invert) == s1;
    }
  }

  lemma {:induction false} WordPen(cfg: Config, s: Layout, t: seq<bv8>, k: nat, e: nat, invert: bool)
    requires e <= |t| && s.pen.x + ChunkCount(t, k, e) * Pace(s) <= 0xFFFF
    ensures var b := Word(Whole(cfg), s, t, k, e, invert); SameRun(s, b) && b.pen.x >= s.pen.x
    decreases e - k
  {
    hide CellOf, Moved, Pace, SameRun;
    SelfRun(s);
    if k < e {
      CountStep(t, k, e, Pace(s));
      var s1 := WordStep(cfg, s, ChunkAt(t, k), invert, 0);
      RunKeeps(s, s1);
      WordPen(cfg, s1, t, k + SeqLen(t[k]), e, invert);
      RunTrans(s, s1, Word(Whole(cfg), s1, t, k + SeqLen(t[k]), e, invert));
    }
  }

  // ---- Whole runs -----------------------------------------------------

  /** Every token either fits a row with its spaces, or has a word too long for any row. */
  predicate TameFrom(s: Layout, t: seq<bv8>, i: nat)
    requires Chunked(t, i)
    decreases |t| - i
  {
    i < |t| ==>
      (TokenBounds(t, i);
       var sp := SkipBlankish(t, i);
       var e := WordEnd(t, sp);
       && ShortToken(s, t, i, sp, e)
       && (TokenWidth(s, t, i, sp, e) <= Usable(s) || ChunkCount(t, sp, e) * Pace(s) > Usable(s))
       && TameFrom(s, t, e))
  }

  lemma {:induction false} TameSame(a: Layout, b: Layout, t: seq<bv8>, i: nat)
    requires Chunked(t, i) && SameRun(a, b)
    ensures TameFrom(a, t, i) == TameFrom(b, t, i)
    decreases |t| - i
  {
    if i < |t| {
      TokenBounds(t, i);
      TameSame(a, b, t, WordEnd(t, SkipBlankish(t, i)));
    }
  }

  lemma {:induction false} TokensInside(cfg: Config, s: Layout, t: seq<bv8>, i: nat, invert: bool)
    requires Chunked(t, i) && Indent(s) <= s.pen.x && TameFrom(s, t, i)
    ensures AddsInside(s, Tokens(Whole(cfg), s, t, i, invert), Indent(s))
    decreases |t| - i
  {
    hide AddsInside, Token;
    SelfAdds(s, Indent(s));
    if i < |t| {
      TokenBounds(t, i);
      var sp := SkipBlankish(t, i);
      var e := WordEnd(t, sp);
      TokenInsideIff(cfg, s, t, i, invert);
      var s1 := Token(Whole(cfg), s, t, i, sp, e, invert);
      TameSame(s, s1, t, e);
      assert Indent(s1) == Indent(s);
      TokensInside(cfg, s1, t, e, invert);
      AddsTrans(s, s1, Tokens(Whole(cfg), s1, t, e, invert), Indent(s));
    }
  }

  lemma {:induction false} LiteralInside(cfg: Config, s: Layout, t: seq<bv8>, k: nat, invert: bool, left: nat)
    requires left <= s.pen.x
    ensures AddsInside(s, LiteralFrom(Whole(cfg), s, t, k, invert), left)
    decreases |t| - k
  {
    hide AddsInside, Put, PutIf, Moved, Opened, RowHeight;
    SelfAdds(s, left);
    if k < |t| {
      if s.pen.x + FONT_ADVANCE > RIGHT {
        LiteralMark(cfg, s, invert, left);
      } else {
        var s1 := LiteralStep(cfg, s, ChunkAt(t, k), invert, left);
        LiteralInside(cfg, s1, t, k + SeqLen(t[k]), invert, left);
        AddsTrans(s, s1, LiteralFrom(Whole(cfg), s1, t, k + SeqLen(t[k]), invert), left);
      }
    }
  }

  lemma LiteralMark(cfg: Config, s: Layout, invert: bool, left: nat)
    ensures var s1 := Put(Whole(cfg), s, Fill(RIGHT - FONT_ADVANCE, FONT_ADVANCE, RowHeight(Whole(cfg), s), invert));
      AddsInside(s, Opened(Put(Whole(cfg), s1, Symbol(RIGHT - FONT_ADVANCE, [0xC2, 0xBB], !invert))), left)
  {
    hide AddsInside, Put;
    var fill := Fill(RIGHT - FONT_ADVANCE, FONT_ADVANCE, RowHeight(Whole(cfg), s), invert);
    var mark := Symbol(RIGHT - FONT_ADVANCE, [0xC2, 0xBB], !invert);
    var s1 := Put(Whole(cfg), s, fill);
    PutAdds(cfg, s, true, fill, left);
    PutAdds(cfg, s1, true, mark, left);
    var s2 := Put(Whole(cfg), s1, mark);
    SameLog(s2, Opened(s2), left);
    AddsTrans(s, s1, s2, left);
    AddsTrans(s, s2, Opened(s2), left);
  }

  lemma LiteralStep(cfg: Config, s: Layout, bytes: seq<bv8>, invert: bool, left: nat) returns (b: Layout)
    requires left <= s.pen.x && s.pen.x + FONT_ADVANCE <= RIGHT
    ensures b == Moved(Put(Whole(cfg), PutIf(Whole(cfg), s, invert, Fill(s.pen.x, FONT_ADVANCE, RowHeight(Whole(cfg), s), true)),
                           Glyph(Body, s.pen.x, bytes, !invert)), FONT_ADVANCE)
    ensures AddsInside(s, b, left) && left <= b.pen.x
  {
    hide AddsInside, Put, PutIf;
    var fill := Fill(s.pen.x, FONT_ADVANCE, RowHeight(Whole(cfg), s), true);
    PutAdds(cfg, s, invert, fill, left);
    PutIfPen(cfg, s, invert, fill);
    var s1 := PutIf(Whole(cfg), s, invert, fill);
    BodyGlyphAdds(cfg, s1, bytes, s.pen.x, !invert, left);
    var s2 := Put(Whole(cfg), s1, Glyph(Body, s.pen.x, bytes, !invert));
    AddsTrans(s, s1, s2, left);
    MovedAdds(s, s2, FONT_ADVANCE, left);
    b := Moved(s2, FONT_ADVANCE);
  }

  lemma BodyGlyphAdds(cfg: Config, s: Layout, bytes: seq<bv8>, x: int, black: bool, left: nat)
    requires left <= x && x + FONT_ADVANCE <= RIGHT
    ensures AddsInside(s, Put(Whole(cfg), s, Glyph(Body, x, bytes, black)), left)
    ensures Put(Whole(cfg), s, Glyph(Body, x, bytes, black)).pen == s.pen
  {
  }

  /** A run whose tokens are tame stays between the left edge and the right margin from any pen at or past
      the left edge, and a literal run always does. */
  lemma RunStaysInside(cfg: Config, s: Layout, t: seq<bv8>, invert: bool)
    requires Chunked(t, 0) && (s.pen.rowOpen ==> Indent(s) <= s.pen.x)
    requires s.pen.literal || TameFrom(s, t, 0)
    ensures AddsInside(s, EmitRun(Whole(cfg), s, t, invert), Indent(s))
  {
    hide AddsInside, Tokens, LiteralFrom;
    if s.pen.literal {
      SameLog(s, ToMargin(s), Indent(s));
      LiteralInside(cfg, ToMargin(s), t, 0, invert, Indent(s));
      AddsTrans(s, ToMargin(s), LiteralFrom(Whole(cfg), ToMargin(s), t, 0, invert), Indent(s));
    } else {
      var p := PullBack(s);
      SameLog(s, p, Indent(s));
      TameSame(s, p, t, 0);
      assert Indent(p) == Indent(s);
      TokensInside(cfg, p, t, 0, invert);
      AddsTrans(s, p, Tokens(Whole(cfg), p, t, 0, invert), Indent(s));
    }
  }

  // ---- Exactly when a run stays inside --------------------------------

  lemma CellGrows(g: Page, s: Layout, bytes: seq<bv8>, invert: bool)
    ensures s.log <= CellOf(g, s, bytes, invert).log
  {
  }

  lemma {:induction false} WordGrows(g: Page, s: Layout, t: seq<bv8>, k: nat, e: nat, invert: bool)
    requires e <= |t|
    ensures s.log <= Word(g, s, t, k, e, invert).log
    decreases e - k
  {
    hide CellOf, Pace;
    if k < e {
      CellGrows(g, s, ChunkAt(t, k), invert);
      WordGrows(g, Moved(CellOf(g, s, ChunkAt(t, k), invert), Pace(s)), t, k + SeqLen(t[k]), e, invert);
    }
  }

  lemma {:induction false} LongWordGrows(g: Page, s: Layout, t: seq<bv8>, k: nat, e: nat, invert: bool)
    requires e <= |t|
    ensures s.log <= LongWord(g, s, t, k, e, invert).log
    decreases e - k
  {
    hide Pace, FaceOf;
    if k < e {
      var s1 := WrapIfNeeded(g, s, Pace(s));
      LongWordGrows(g, Moved(PutGlyph(g, s1, ChunkAt(t, k), invert), Pace(s1)), t, k + SeqLen(t[k]), e, invert);
    }
  }

  lemma LeadGrows(g: Page, s: Layout, leadW: nat, invert: bool)
    ensures s.log <= Lead(g, s, leadW, invert).log
  {
  }

  lemma TokenGrows(g: Page, s: Layout, t: seq<bv8>, i: nat, sp: nat, e: nat, invert: bool)
    requires i <= sp <= e <= |t|
    ensures s.log <= Token(g, s, t, i, sp, e, invert).log
  {
    hide Word, LongWord, Lead, ChunkCount, Pace, Indent;
    var leadW := LeadWidth(s, i, sp);
    LongWordGrows(g, s, t, i, e, invert);
    LeadGrows(g, s, leadW, invert);
    WordGrows(g, Newline(g, s), t, sp, e, invert);
    WordGrows(g, Lead(g, s, leadW, invert), t, sp, e, invert);
    WordGrows(g, s, t, sp, e, invert);
  }

  lemma {:induction false} TokensGrow(g: Page, s: Layout, t: seq<bv8>, i: nat, invert: bool)
    requires Chunked(t, i)
    ensures s.log <= Tokens(g, s, t, i, invert).log
    decreases |t| - i
  {
    hide Token;
    if i < |t| {
      TokenBounds(t, i);
      var sp := SkipBlankish(t, i);
      var e := WordEnd(t, sp);
      TokenGrows(g, s, t, i, sp, e, invert);
      TokensGrow(g, Token(g, s, t, i, sp, e, invert), t, e, invert);
    }
  }

  /** Spaces and word of every token come to less than sixteen bits can count. */
  predicate AllShort(s: Layout, t: seq<bv8>, i: nat)
    requires Chunked(t, i)
    decreases |t| - i
  {
    i < |t| ==>
      (TokenBounds(t, i);
       var sp := SkipBlankish(t, i);
       ShortToken(s, t, i, sp, WordEnd(t, sp)) && AllShort(s, t, WordEnd(t, sp)))
  }

  lemma {:induction false} ShortSame(a: Layout, b: Layout, t: seq<bv8>, i: nat)
    requires Chunked(t, i) && SameRun(a, b)
    ensures AllShort(a, t, i) == AllShort(b, t, i)
    decreases |t| - i
  {
    if i < |t| {
      TokenBounds(t, i);
      ShortSame(a, b, t, WordEnd(t, SkipBlankish(t, i)));
    }
  }

  /** No token overhangs at the pen it meets. */
  predicate NoneOverhangs(cfg: Config, s: Layout, t: seq<bv8>, i: nat, invert: bool)
    requires Chunked(t, i)
    decreases |t| - i
  {
    i < |t| ==>
      (TokenBounds(t, i);
       var sp := SkipBlankish(t, i);
       var e := WordEnd(t, sp);
       !Overhangs(s, t, i, sp, e) && NoneOverhangs(cfg, Token(Whole(cfg), s, t, i, sp, e, invert), t, e, invert))
  }

  lemma AddsParts(a: Layout, b: Layout, c: Layout, left: nat)
    requires a.log <= b.log <= c.log
    ensures AddsInside(a, c, left) <==> AddsInside(a, b, left) && AddsInside(b, c, left)
  {
    hide Inside;
    if AddsInside(a, c, left) {
      assert forall i :: |a.log| <= i < |b.log| ==> b.log[i] == c.log[i];
    }
    if AddsInside(a, b, left) && AddsInside(b, c, left) {
      AddsTrans(a, b, c, left);
    }
  }

  lemma {:induction false} TokensInsideIff(cfg: Config, s: Layout, t: seq<bv8>, i: nat, invert: bool)
    requires Chunked(t, i) && Indent(s) <= s.pen.x && AllShort(s, t, i)
    ensures AddsInside(s, Tokens(Whole(cfg), s, t, i, invert), Indent(s)) <==> NoneOverhangs(cfg, s, t, i, invert)
    decreases |t| - i
  {
    hide AddsInside, Token, Overhangs, ShortToken;
    SelfAdds(s, Indent(s));
    if i < |t| {
      TokenBounds(t, i);
      var sp := SkipBlankish(t, i);
      var e := WordEnd(t, sp);
      TokenInsideIff(cfg, s, t, i, invert);
      var s1 := Token(Whole(cfg), s, t, i, sp, e, invert);
      ShortSame(s, s1, t, e);
      assert Indent(s1) == Indent(s);
      TokensInsideIff(cfg, s1, t, e, invert);
      TokenGrows(Whole(cfg), s, t, i, sp, e, invert);
      TokensGrow(Whole(cfg), s1, t, e, invert);
      AddsParts(s, s1, Tokens(Whole(cfg), s1, t, e, invert), Indent(s));
    }
  }

  /** A run stays between the left edge and the right margin exactly when it is literal or none of its tokens
      overhangs at the pen it meets. */
  lemma RunInsideIff(cfg: Config, s: Layout, t: seq<bv8>, invert: bool)
    requires Chunked(t, 0) && (s.pen.rowOpen ==> Indent(s) <= s.pen.x) && (s.pen.literal || AllShort(s, t, 0))
    ensures AddsInside(s, EmitRun(Whole(cfg), s, t, invert), Indent(s)) <==> s.pen.literal || NoneOverhangs(cfg, PullBack(s), t, 0, invert)
  {
    if s.pen.literal {
      RunStaysInside(cfg, s, t, invert);
    } else {
      hide AddsInside, Tokens, LiteralFrom, NoneOverhangs;
      var p := PullBack(s);
      SameLog(s, p, Indent(s));
      ShortSame(s, p, t, 0);
      assert Indent(p) == Indent(s);
      TokensInsideIff(cfg, p, t, 0, invert);
      TokensGrow(Whole(cfg), p, t, 0, invert);
      AddsParts(s, p, Tokens(Whole(cfg), p, t, 0, invert), Indent(s));
    }
  }
}
