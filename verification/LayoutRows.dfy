// Every physical text row has one advance and one height, and rows never overlap: exactly when.
module LayoutRows {
  import opened Wrappers
  import opened Geometry
  import opened Utf8
  import opened Chunks
  import opened CellWalk
  import opened TableFit
  import opened LayoutTypes
  import opened LayoutSpec
  import opened LayoutWalk

  /** A character on the page: a glyph of a run, or one of those drawn singly, in a field, as its mark, as a
      divider's filling or where a literal row is clipped. */
  predicate IsChar(shape: Shape) {
    shape.Glyph? || shape.Symbol?
  }

  /** Its advance; what is drawn singly is always in the body face. */
  function CharWidth(shape: Shape): nat {
    if shape.Glyph? then FaceWidth(shape.face) else FONT_ADVANCE
  }

  /** Two characters, the second drawn later: on one row with one height and one advance, or on rows that do
      not overlap, the later one below. */
  predicate RowOrder(a: Draw, b: Draw) {
    IsChar(a.shape) && IsChar(b.shape) ==>
      || (a.row == b.row && a.h == b.h && CharWidth(a.shape) == CharWidth(b.shape))
      || a.row + a.h <= b.row
  }

  predicate RowsOk(log: seq<Draw>) {
    forall i, j :: 0 <= i < j < |log| ==> RowOrder(log[i], log[j])
  }

  // ---- The last character decides -----------------------------------------

  function LastChar(log: seq<Draw>): Option<Draw>
    decreases |log|
  {
    if log == [] then None
    else if IsChar(log[|log| - 1].shape) then Some(log[|log| - 1])
    else LastChar(log[..|log| - 1])
  }

  /** A character of advance w on a row of height h at `row` goes with the last character drawn: on its row and like
      it, or below it. */
  predicate Follows(log: seq<Draw>, row: nat, h: nat, w: nat) {
    match LastChar(log)
    case None => true
    case Some(d) => IsChar(d.shape) && ((d.row == row && d.h == h && CharWidth(d.shape) == w) || d.row + d.h <= row)
  }

  /** Nothing reaches down to row y. */
  predicate Clear(log: seq<Draw>, y: nat) {
    match LastChar(log)
    case None => true
    case Some(d) => d.row + d.h <= y
  }

  lemma {:induction false} LastCharAt(log: seq<Draw>) returns (k: int)
    ensures -1 <= k < |log|
    ensures k == -1 ==> LastChar(log) == None && forall i :: 0 <= i < |log| ==> !IsChar(log[i].shape)
    ensures k >= 0 ==> LastChar(log) == Some(log[k]) && IsChar(log[k].shape) && forall i :: k < i < |log| ==> !IsChar(log[i].shape)
    decreases |log|
  {
    if log == [] {
      k := -1;
    } else if IsChar(log[|log| - 1].shape) {
      k := |log| - 1;
    } else {
      k := LastCharAt(log[..|log| - 1]);
    }
  }

  lemma LastSnoc(log: seq<Draw>, d: Draw)
    ensures LastChar(log + [d]) == if IsChar(d.shape) then Some(d) else LastChar(log)
  {
    assert (log + [d])[..|log|] == log;
  }

  /** One more draw keeps the rows exactly when it is no character or it follows the last one. */
  lemma RowsSnoc(log: seq<Draw>, d: Draw)
    ensures RowsOk(log + [d]) <==> RowsOk(log) && (IsChar(d.shape) ==> Follows(log, d.row, d.h, CharWidth(d.shape)))
  {
    var all := log + [d];
    var k := LastCharAt(log);
    if RowsOk(all) {
      forall i, j | 0 <= i < j < |log|
        ensures RowOrder(log[i], log[j])
      {
        assert RowOrder(all[i], all[j]);
      }
      assert k >= 0 ==> RowOrder(all[k], all[|log|]);
    }
    if RowsOk(log) && (IsChar(d.shape) ==> Follows(log, d.row, d.h, CharWidth(d.shape))) {
      forall i, j | 0 <= i < j < |all|
        ensures RowOrder(all[i], all[j])
      {
        if j < |log| {
          assert RowOrder(log[i], log[j]);
        } else if i < k {
          assert RowOrder(log[i], log[k]);
        }
      }
    }
  }

  // ---- States ---------------------------------------------------------

  /** The next character of advance w may be drawn at the pen. */
  predicate Ready(g: Page, s: Layout, w: nat) {
    Follows(s.log, s.pen.y, RowHeight(g, s), w)
  }

  /** The row is ready for its own face, and a row not yet opened is clear. */
  predicate Settled(g: Page, s: Layout, w: nat) {
    Ready(g, s, w) && (!s.pen.rowOpen ==> Clear(s.log, s.pen.y))
  }

  /** Nothing was added that bears on the rows. */
  predicate SameRows(a: Layout, b: Layout) {
    RowsOk(b.log) == RowsOk(a.log) && LastChar(b.log) == LastChar(a.log)
  }

  /** Characters were added, the first of them at `row`; the rows stay right exactly if that one follows, and
      afterwards the pen's row is settled. */
  predicate Drew(g: Page, a: Layout, b: Layout, row: nat, w: nat) {
    && (RowsOk(b.log) <==> RowsOk(a.log) && Follows(a.log, row, RowHeight(g, a), w))
    && Settled(g, b, w)
  }

  lemma ReadyBelow(g: Page, s: Layout, w: nat, row: nat)
    requires Ready(g, s, w) && row >= s.pen.y + RowHeight(g, s)
    ensures Clear(s.log, row) && Follows(s.log, row, RowHeight(g, s), w)
  {
  }

  lemma SameRowsTrans(a: Layout, b: Layout, c: Layout)
    requires SameRows(a, b) && SameRows(b, c)
    ensures SameRows(a, c)
  {
  }

  /** Once a row is right its later glyphs are too. */
  lemma DrewOn(g: Page, a: Layout, b: Layout, c: Layout, row: nat, next: nat, w: nat)
    requires Drew(g, a, b, row, w) && Drew(g, b, c, next, w)
    requires next == b.pen.y || next >= b.pen.y + RowHeight(g, b)
    ensures Drew(g, a, c, row, w)
  {
    hide RowsOk, Follows;
    if next != b.pen.y {
      ReadyBelow(g, b, w, next);
    }
  }

  // ---- Primitives -----------------------------------------------------

  lemma PutRows(g: Page, s: Layout, when: bool, shape: Shape)
    requires !g.view.Window? && !IsChar(shape)
    ensures SameRows(s, Put(g, s, shape)) && Put(g, s, shape).pen == s.pen
    ensures SameRows(s, PutIf(g, s, when, shape)) && PutIf(g, s, when, shape).pen == s.pen
  {
    hide RowsOk, Follows;
    var d := Draw(s.pen.y, RowHeight(g, s), shape);
    RowsSnoc(s.log, d);
    LastSnoc(s.log, d);
  }

  lemma PaintRows(g: Page, s: Layout, x: int, w: int, luma: nat)
    requires !g.view.Window?
    ensures SameRows(s, PaintBg(g, s, x, w, luma)) && PaintBg(g, s, x, w, luma).pen == s.pen
  {
    hide SameRows, Put, PutIf;
    PutRows(g, s, true, Texture(x, w, RowHeight(g, s), luma));
    PutRows(g, s, luma < 128, Fill(x, w, RowHeight(g, s), true));
  }

  lemma CharRows(g: Page, s: Layout, shape: Shape)
    requires !g.view.Window? && IsChar(shape)
    ensures var b := Put(g, s, shape); var w := CharWidth(shape);
      && b.pen == s.pen && (RowsOk(b.log) <==> RowsOk(s.log) && Ready(g, s, w)) && Ready(g, b, w)
  {
    hide RowsOk;
    var d := Draw(s.pen.y, RowHeight(g, s), shape);
    RowsSnoc(s.log, d);
    LastSnoc(s.log, d);
  }

  lemma FaceKeepsPace(g: Page, s: Layout, bytes: seq<bv8>)
    ensures FaceWidth(FaceOf(g, s, bytes)) == Pace(s)
  {
  }

  lemma PutGlyphRows(g: Page, s: Layout, bytes: seq<bv8>, invert: bool)
    requires !g.view.Window?
    ensures var b := PutGlyph(g, s, bytes, invert); var w := Pace(s);
      && b.pen == s.pen && (RowsOk(b.log) <==> RowsOk(s.log) && Ready(g, s, w)) && Ready(g, b, w)
  {
    hide RowsOk, Ready, Put, FaceOf;
    FaceKeepsPace(g, s, bytes);
    CharRows(g, s, Glyph(FaceOf(g, s, bytes), s.pen.x, bytes, !invert));
  }

  lemma SameReady(g: Page, a: Layout, b: Layout, w: nat)
    requires LastChar(a.log) == LastChar(b.log) && a.pen.y == b.pen.y && a.pen.rowH == b.pen.rowH
    ensures Ready(g, a, w) == Ready(g, b, w) && Clear(a.log, a.pen.y) == Clear(b.log, b.pen.y)
    ensures forall row, h :: Follows(a.log, row, h, w) == Follows(b.log, row, h, w)
  {
  }

  // ---- Runs -----------------------------------------------------------

  lemma CellRows(g: Page, s: Layout, bytes: seq<bv8>, invert: bool)
    requires !g.view.Window? && !(|bytes| == 1 && Blankish(bytes[0]))
    ensures var b := CellOf(g, s, bytes, invert); var w := Pace(s);
      && b.pen == s.pen && (RowsOk(b.log) <==> RowsOk(s.log) && Ready(g, s, w)) && Ready(g, b, w)
  {
    hide RowsOk, Ready, Put, PutIf, PutGlyph, Pace;
    PutRows(g, s, true, Fill(s.pen.x, Pace(s), RowHeight(g, s), invert));
    PutRows(g, s, invert, Fill(s.pen.x, Pace(s), RowHeight(g, s), true));
    var s1 := if s.pen.hasBg then Put(g, s, Fill(s.pen.x, Pace(s), RowHeight(g, s), invert)) else PutIf(g, s, invert, Fill(s.pen.x, Pace(s), RowHeight(g, s), true));
    SamePace(s, s1);
    SameReady(g, s, s1, Pace(s));
    PutGlyphRows(g, s1, bytes, invert);
    var s2 := PutGlyph(g, s1, bytes, invert);
    var rule := Rule(s.pen.x, RowHeight(g, s) - 2, Pace(s), !invert);
    PutRows(g, s2, s.pen.underline, rule);
    SameReady(g, s2, PutIf(g, s2, s.pen.underline, rule), Pace(s));
  }

  predicate NoBlanks(t: seq<bv8>, k: nat, e: nat)
    requires e <= |t|
    decreases e - k
  {
    k < e ==> !(|ChunkAt(t, k)| == 1 && Blankish(ChunkAt(t, k)[0])) && NoBlanks(t, k + SeqLen(t[k]), e)
  }

  lemma {:induction false} WordNoBlanks(t: seq<bv8>, sp: nat)
    requires Chunked(t, sp)
    ensures WordEnd(t, sp) <= |t| && NoBlanks(t, sp, WordEnd(t, sp))
    decreases |t| - sp
  {
    WordEndBounds(t, sp);
    if sp < |t| && !Blankish(t[sp]) {
      WordNoBlanks(t, sp + SeqLen(t[sp]));
      WordEndBounds(t, sp + SeqLen(t[sp]));
    }
  }

  lemma {:induction false} WordRows(g: Page, s: Layout, t: seq<bv8>, k: nat, e: nat, invert: bool)
    requires !g.view.Window? && e <= |t| && NoBlanks(t, k, e)
    ensures k < e ==> Drew(g, s, Word(g, s, t, k, e, invert), s.pen.y, Pace(s))
    decreases e - k
  {
    hide RowsOk, Follows, CellOf, Pace, RowHeight;
    if k < e {
      var c := CellOf(g, s, ChunkAt(t, k), invert);
      CellRows(g, s, ChunkAt(t, k), invert);
      var m := Moved(c, Pace(s));
      SamePace(s, m);
      SameHeight(g, s, m);
      SameReady(g, c, m, Pace(s));
      assert Drew(g, s, m, s.pen.y, Pace(s));
      WordRows(g, m, t, k + SeqLen(t[k]), e, invert);
      if k + SeqLen(t[k]) < e {
        DrewOn(g, s, m, Word(g, m, t, k + SeqLen(t[k]), e, invert), s.pen.y, m.pen.y, Pace(s));
      }
    }
  }

  lemma SameHeight(g: Page, a: Layout, b: Layout)
    requires a.pen.rowH == b.pen.rowH
    ensures RowHeight(g, a) == RowHeight(g, b)
  {
  }

  /** The row a glyph of width p lands on, once a full row has been left. */
  function LandsAt(g: Page, s: Layout, over: bool): nat {
    if over then s.pen.y + RowHeight(g, s) else s.pen.y
  }

  predicate LongOver(s: Layout) {
    s.pen.x > Indent(s) && s.pen.x + Pace(s) > RIGHT
  }

  lemma {:induction false} LongWordRows(g: Page, s: Layout, t: seq<bv8>, k: nat, e: nat, invert: bool)
    requires !g.view.Window? && e <= |t|
    ensures k < e ==> Drew(g, s, LongWord(g, s, t, k, e, invert), LandsAt(g, s, LongOver(s)), Pace(s))
    decreases e - k
  {
    hide RowsOk, Follows, PutGlyph, Pace, RowHeight, Indent;
    if k < e {
      var m := LongStepRows(g, s, ChunkAt(t, k), invert);
      LongWordRows(g, m, t, k + SeqLen(t[k]), e, invert);
      if k + SeqLen(t[k]) < e {
        DrewOn(g, s, m, LongWord(g, m, t, k + SeqLen(t[k]), e, invert), LandsAt(g, s, LongOver(s)), LandsAt(g, m, LongOver(m)), Pace(s));
      }
    }
  }

  lemma LongStepRows(g: Page, s: Layout, bytes: seq<bv8>, invert: bool) returns (m: Layout)
    requires !g.view.Window?
    ensures m == Moved(PutGlyph(g, WrapIfNeeded(g, s, Pace(s)), bytes, invert), Pace(WrapIfNeeded(g, s, Pace(s))))
    ensures Drew(g, s, m, LandsAt(g, s, LongOver(s)), Pace(s)) && Pace(m) == Pace(s)
  {
    hide RowsOk, Follows, PutGlyph, Pace, Indent;
    var s1 := WrapIfNeeded(g, s, Pace(s));
    SamePace(s, s1);
    SameHeight(g, s, s1);
    PutGlyphRows(g, s1, bytes, invert);
    var c := PutGlyph(g, s1, bytes, invert);
    m := Moved(c, Pace(s1));
    SamePace(s, m);
    SameReady(g, c, m, Pace(s));
  }

  lemma LeadRows(g: Page, s: Layout, leadW: nat, invert: bool)
    requires !g.view.Window?
    ensures var b := Lead(g, s, leadW, invert);
      SameRows(s, b) && b.pen == s.pen.(x := b.pen.x, rowOpen := true)
  {
    hide SameRows, PaintBg, PutIf;
    PaintRows(g, s, s.pen.x, leadW, s.pen.bgLuma);
    SelfRows(s);
    var s1 := if s.pen.hasBg then PaintBg(g, s, s.pen.x, leadW, s.pen.bgLuma) else s;
    var rule := Rule(s.pen.x, RowHeight(g, s) - 2, leadW, !invert);
    PutRows(g, s1, s.pen.underline, rule);
    var s2 := PutIf(g, s1, s.pen.underline, rule);
    SameRowsTrans(s, s1, s2);
    LogRows(s, s2, Moved(s2, leadW));
  }

  lemma SelfRows(s: Layout)
    ensures SameRows(s, s)
  {
  }

  lemma LogRows(a: Layout, b: Layout, c: Layout)
    requires SameRows(a, b) && c.log == b.log
    ensures SameRows(a, c)
  {
  }

  predicate TokenOver(s: Layout, t: seq<bv8>, i: nat, sp: nat, e: nat)
    requires i <= sp <= e <= |t|
  {
    if WordWidth(s, t, sp, e) > Usable(s) then LongOver(s)
    else s.pen.x + LeadWidth(s, i, sp) + WordWidth(s, t, sp, e) > RIGHT && s.pen.x > Indent(s)
  }

  /** A token with a word draws; one of spaces alone, at the end of a run, does not. */
  lemma TokenRows(g: Page, s: Layout, t: seq<bv8>, i: nat, sp: nat, e: nat, invert: bool)
    requires !g.view.Window? && i <= sp <= e <= |t| && NoBlanks(t, sp, e)
    ensures var b := Token(g, s, t, i, sp, e, invert);
      && (sp < e ==> Drew(g, s, b, LandsAt(g, s, TokenOver(s, t, i, sp, e)), Pace(s)))
      && (sp == e ==> Idle(g, s, b))
  {
    hide RowsOk, Follows, Word, LongWord, Lead, Pace, ChunkCount, NoBlanks, Drew, SameRows, Newline, RowHeight;
    NoWordNoWidth(s, t, sp, e);
    if WordWidth(s, t, sp, e) > Usable(s) {
      LongWordRows(g, s, t, i, e, invert);
    } else if TokenOver(s, t, i, sp, e) {
      WordBelowRows(g, s, t, sp, e, invert);
    } else {
      var leadW := LeadWidth(s, i, sp);
      var s1 := if leadW != 0 then Lead(g, s, leadW, invert) else s;
      LeadRows(g, s, leadW, invert);
      SelfRows(s);
      WordAfterRows(g, s, s1, t, sp, e, invert);
    }
  }

  /** No glyph was drawn; the pen is on its row or the next. */
  predicate Idle(g: Page, a: Layout, b: Layout) {
    SameRows(a, b) && ((b.pen.y == a.pen.y && (b.pen.rowOpen || !a.pen.rowOpen)) || b.pen.y == a.pen.y + RowHeight(g, a))
  }

  lemma NoWordNoWidth(s: Layout, t: seq<bv8>, sp: nat, e: nat)
    requires sp <= e <= |t|
    ensures sp == e ==> WordWidth(s, t, sp, e) == 0
  {
  }

  lemma WordBelowRows(g: Page, s: Layout, t: seq<bv8>, sp: nat, e: nat, invert: bool)
    requires !g.view.Window? && sp <= e <= |t| && NoBlanks(t, sp, e)
    ensures var b := Word(g, Newline(g, s), t, sp, e, invert);
      && (sp < e ==> Drew(g, s, b, s.pen.y + RowHeight(g, s), Pace(s)))
      && (sp == e ==> Idle(g, s, b))
  {
    hide RowsOk, Follows, Pace, NoBlanks, RowHeight;
    var n := Newline(g, s);
    SamePace(s, n);
    SameHeight(g, s, n);
    WordRows(g, n, t, sp, e, invert);
  }

  lemma WordAfterRows(g: Page, s: Layout, s1: Layout, t: seq<bv8>, sp: nat, e: nat, invert: bool)
    requires !g.view.Window? && sp <= e <= |t| && NoBlanks(t, sp, e)
    requires SameRows(s, s1) && s1.pen == s.pen.(x := s1.pen.x, rowOpen := s1.pen.rowOpen) && (s1.pen.rowOpen || s1 == s)
    ensures var b := Word(g, s1, t, sp, e, invert);
      && (sp < e ==> Drew(g, s, b, s.pen.y, Pace(s)))
      && (sp == e ==> Idle(g, s, b))
  {
    hide RowsOk, Pace, NoBlanks, RowHeight;
    SamePace(s, s1);
    SameHeight(g, s, s1);
    SameReady(g, s, s1, Pace(s));
    hide Follows;
    WordRows(g, s1, t, sp, e, invert);
  }

  /** Where the first glyph of a run from t[i] lands, if the run has one. */
  function ProseFirst(g: Page, s: Layout, t: seq<bv8>, i: nat): Option<nat>
    requires Chunked(t, i)
  {
    if i < |t| then
      TokenBounds(t, i);
      var sp := SkipBlankish(t, i);
      var e := WordEnd(t, sp);
      if sp < e then Some(LandsAt(g, s, TokenOver(s, t, i, sp, e))) else None
    else None
  }

  lemma {:induction false} ProseRows(g: Page, s: Layout, t: seq<bv8>, i: nat, invert: bool)
    requires !g.view.Window? && Chunked(t, i)
    ensures var b := Tokens(g, s, t, i, invert);
      match ProseFirst(g, s, t, i)
      case Some(row) => Drew(g, s, b, row, Pace(s))
      case None => Idle(g, s, b)
    decreases |t| - i
  {
    hide RowsOk, Token, Pace, Drew, Idle, TokenOver, NoBlanks, RowHeight, Chunked, SkipBlankish, WordEnd;
    SelfIdle(g, s);
    if i < |t| {
      TokenBounds(t, i);
      var sp := SkipBlankish(t, i);
      var e := WordEnd(t, sp);
      var s1 := Token(g, s, t, i, sp, e, invert);
      FirstToken(g, s, t, i, invert);
      ProseRows(g, s1, t, e, invert);
      if sp < e {
        TokensKeep(g, s1, t, e, invert);
        FirstNext(g, s1, t, e);
        RestRows(g, s, s1, Tokens(g, s1, t, e, invert), ProseFirst(g, s1, t, e), LandsAt(g, s, TokenOver(s, t, i, sp, e)), Pace(s));
      }
    }
  }

  lemma FirstToken(g: Page, s: Layout, t: seq<bv8>, i: nat, invert: bool)
    requires !g.view.Window? && Chunked(t, i) && i < |t|
    ensures var sp := SkipBlankish(t, i); var e := WordEnd(t, sp);
      && i <= sp <= e <= |t| && Chunked(t, e)
      && var b := Token(g, s, t, i, sp, e, invert);
      && Pace(b) == Pace(s) && b.pen.rowH == s.pen.rowH
      && (sp < e ==> Drew(g, s, b, LandsAt(g, s, TokenOver(s, t, i, sp, e)), Pace(s)))
      && (sp == e ==> e == |t| && Idle(g, s, b))
  {
    hide RowsOk, Token, Pace, Drew, Idle, TokenOver, NoBlanks, RowHeight, TokenWalk, ChunkCount;
    TokenBounds(t, i);
    SkipBlankishBounds(t, i);
    var sp := SkipBlankish(t, i);
    var e := WordEnd(t, sp);
    WordNoBlanks(t, sp);
    TokenRows(g, s, t, i, sp, e, invert);
    TokenWalks(g, s, t, i, sp, e, invert);
    var a := TokenWalk(Indent(s), Pace(s), s.pen.x, sp - i, ChunkCount(t, sp, e));
    WentKeeps(g, s, Token(g, s, t, i, sp, e, invert), a.rows, a.x);
    if sp == e {
      LastBlanks(t, sp);
    }
  }

  lemma TokensKeep(g: Page, s: Layout, t: seq<bv8>, i: nat, invert: bool)
    requires Chunked(t, i)
    ensures var b := Tokens(g, s, t, i, invert).pen; b == s.pen.(x := b.x, y := b.y, rowOpen := b.rowOpen)
  {
    hide Tokens, ProseWalk;
    ProseWalks(g, s, t, i, invert);
  }

  lemma FirstNext(g: Page, s: Layout, t: seq<bv8>, i: nat)
    requires Chunked(t, i)
    ensures ProseFirst(g, s, t, i).Some? ==> ProseFirst(g, s, t, i).value in {s.pen.y, s.pen.y + RowHeight(g, s)}
  {
  }

  lemma LastBlanks(t: seq<bv8>, sp: nat)
    requires Chunked(t, sp) && sp == WordEnd(t, sp) && (sp < |t| ==> !Blankish(t[sp]))
    ensures sp == |t|
  {
    if sp < |t| {
      WordEndBounds(t, sp + SeqLen(t[sp]));
    }
  }

  lemma SelfIdle(g: Page, s: Layout)
    ensures Idle(g, s, s)
  {
  }

  lemma RestRows(g: Page, s: Layout, s1: Layout, b: Layout, first: Option<nat>, row: nat, w: nat)
    requires Drew(g, s, s1, row, w) && b.pen.rowH == s1.pen.rowH == s.pen.rowH
    requires first.Some? ==> first.value in {s1.pen.y, s1.pen.y + RowHeight(g, s1)} && Drew(g, s1, b, first.value, w)
    requires first.None? ==> Idle(g, s1, b)
    ensures Drew(g, s, b, row, w)
  {
    hide RowsOk;
    SameHeight(g, s, s1);
    SameHeight(g, s1, b);
    if first.Some? {
      DrewOn(g, s, s1, b, row, first.value, w);
    } else {
      IdleSettled(g, s1, b, w);
    }
  }

  lemma IdleSettled(g: Page, a: Layout, b: Layout, w: nat)
    requires Settled(g, a, w) && Idle(g, a, b) && a.pen.rowH == b.pen.rowH
    ensures Settled(g, b, w)
  {
    if b.pen.y != a.pen.y {
      ReadyBelow(g, a, w, b.pen.y);
    }
  }

  // ---- Whole runs -----------------------------------------------------

  // A literal run always draws: its first cell, or the mark that it is clipped.
  lemma {:induction false} LiteralRows(g: Page, s: Layout, t: seq<bv8>, k: nat, invert: bool)
    requires !g.view.Window?
    ensures var b := LiteralFrom(g, s, t, k, invert);
      if k < |t| then Drew(g, s, b, s.pen.y, FONT_ADVANCE) else Idle(g, s, b)
    decreases |t| - k
  {
    hide RowsOk, LiteralCellOf, Clipped, RowHeight, Drew, Idle;
    SelfIdle(g, s);
    if k < |t| {
      if s.pen.x + FONT_ADVANCE > RIGHT {
        ClipRows(g, s, invert);
      } else {
        var m := LiteralCellOf(g, s, ChunkAt(t, k), invert);
        var next := k + SeqLen(t[k]);
        LiteralCellRows(g, s, ChunkAt(t, k), invert);
        LiteralRows(g, m, t, next, invert);
        LiteralKeepsPen(g, m, t, next, invert);
        RestRows(g, s, m, LiteralFrom(g, m, t, next, invert), if next < |t| then Some(m.pen.y) else None, s.pen.y, FONT_ADVANCE);
      }
    }
  }

  lemma LiteralKeepsPen(g: Page, s: Layout, t: seq<bv8>, k: nat, invert: bool)
    ensures LiteralFrom(g, s, t, k, invert).pen.rowH == s.pen.rowH
  {
    hide LiteralFrom, LiteralWalk;
    LiteralWalks(g, s, t, k, invert);
  }

  lemma ClipRows(g: Page, s: Layout, invert: bool)
    requires !g.view.Window?
    ensures Drew(g, s, Clipped(g, s, invert), s.pen.y, FONT_ADVANCE)
  {
    hide RowsOk, Put, Ready;
    var fill := Fill(RIGHT - FONT_ADVANCE, FONT_ADVANCE, RowHeight(g, s), invert);
    var mark := Symbol(RIGHT - FONT_ADVANCE, [0xC2, 0xBB], !invert);
    PutRows(g, s, true, fill);
    var s1 := Put(g, s, fill);
    SameReady(g, s, s1, FONT_ADVANCE);
    CharRows(g, s1, mark);
    var c := Put(g, s1, mark);
    SameReady(g, c, Opened(c), FONT_ADVANCE);
    ReadyMeans(g, s, FONT_ADVANCE);
  }

  lemma LiteralCellRows(g: Page, s: Layout, bytes: seq<bv8>, invert: bool)
    requires !g.view.Window?
    ensures var m := LiteralCellOf(g, s, bytes, invert);
      Drew(g, s, m, s.pen.y, FONT_ADVANCE) && m.pen.y == s.pen.y && m.pen.rowH == s.pen.rowH
  {
    hide RowsOk, Put, PutIf, Ready;
    var fill := Fill(s.pen.x, FONT_ADVANCE, RowHeight(g, s), true);
    PutRows(g, s, invert, fill);
    var s1 := PutIf(g, s, invert, fill);
    SameReady(g, s, s1, FONT_ADVANCE);
    CharRows(g, s1, Glyph(Body, s.pen.x, bytes, !invert));
    var c := Put(g, s1, Glyph(Body, s.pen.x, bytes, !invert));
    SameReady(g, c, Moved(c, FONT_ADVANCE), FONT_ADVANCE);
    ReadyMeans(g, s, FONT_ADVANCE);
  }

  lemma ReadyMeans(g: Page, s: Layout, w: nat)
    ensures Ready(g, s, w) == Follows(s.log, s.pen.y, RowHeight(g, s), w)
  {
  }

  /** The advance a run's glyphs have. */
  function RunPace(s: Layout): nat {
    if s.pen.literal then FONT_ADVANCE else Pace(s)
  }

  /** Where the first glyph of a run lands, if it has one: worked out from the pen, before drawing. */
  function RunFirst(g: Page, s: Layout, t: seq<bv8>): Option<nat>
    requires Chunked(t, 0)
  {
    if s.pen.literal then (if t != [] then Some(s.pen.y) else None)
    else ProseFirst(g, PullBack(s), t, 0)
  }

  /** The first glyph of the run goes with the last glyph drawn before it. */
  predicate RunFollows(g: Page, s: Layout, t: seq<bv8>)
    requires Chunked(t, 0)
  {
    match RunFirst(g, s, t)
    case Some(row) => Follows(s.log, row, RowHeight(g, s), RunPace(s))
    case None => true
  }

  lemma SamePen(g: Page, s: Layout, a: Layout)
    requires a.log == s.log && a.pen == s.pen.(x := a.pen.x)
    ensures forall b, row, w :: Drew(g, a, b, row, w) == Drew(g, s, b, row, w)
    ensures forall b :: Idle(g, a, b) == Idle(g, s, b)
    ensures Pace(a) == Pace(s) && RowHeight(g, a) == RowHeight(g, s)
  {
    SamePace(s, a);
  }

  /** A run keeps the rows right exactly when they were right and its first glyph follows the last one drawn;
      after that its own wraps and cells always do. */
  lemma RunRowsIff(g: Page, s: Layout, t: seq<bv8>, invert: bool)
    requires !g.view.Window? && Chunked(t, 0)
    ensures var b := EmitRun(g, s, t, invert);
      && (RowsOk(b.log) <==> RowsOk(s.log) && RunFollows(g, s, t))
      && (RunFirst(g, s, t).Some? ==> Settled(g, b, RunPace(s)))
      && (RunFirst(g, s, t).None? ==> Idle(g, s, b))
      && b.pen == s.pen.(x := b.pen.x, y := b.pen.y, rowOpen := b.pen.rowOpen)
  {
    hide RowsOk, Follows, Tokens, LiteralFrom, Pace, ProseFirst, Settled;
    var a := if s.pen.literal then ToMargin(s) else PullBack(s);
    SamePen(g, s, a);
    RunKeepsPen(g, s, t, invert);
    if s.pen.literal {
      LiteralRows(g, a, t, 0, invert);
    } else {
      ProseRows(g, a, t, 0, invert);
    }
  }

  lemma RunKeepsPen(g: Page, s: Layout, t: seq<bv8>, invert: bool)
    requires Chunked(t, 0)
    ensures var b := EmitRun(g, s, t, invert).pen; b == s.pen.(x := b.x, y := b.y, rowOpen := b.rowOpen)
  {
    hide EmitRun, RunWalk;
    RunWalks(g, s, t, invert);
  }
}
