// Where a run leaves the pen, worked out from its widths alone, without drawing anything.
module LayoutWalk {
  import opened Geometry
  import opened Utf8
  import opened Chunks
  import opened Arith
  import opened LayoutTypes
  import opened LayoutSpec

  /** How many rows down a run ends, and at which column. */
  datatype Stop = Stop(rows: nat, x: U16)

  // n cells of width p, broken at the margin one by one.
  function LongWalk(left: nat, p: nat, x: U16, n: nat): Stop
    decreases left, n
  {
    if n == 0 then Stop(0, x)
    else if x > left && x + p > RIGHT then
      var r := LongWalk(left, p, Wrap16(left + p), n - 1);
      Stop(r.rows + 1, r.x)
    else LongWalk(left, p, Wrap16(x + p), n - 1)
  }

  /** A token of `lead` spaces and a word of `word` cells. */
  function TokenWalk(left: nat, p: nat, x: U16, lead: nat, word: nat): Stop {
    if Wrap16(word * p) > CONTENT_W - (left - MARGIN_X) then LongWalk(left, p, x, lead + word)
    else ShortWalk(left, x, lead * p, word * p)
  }

  // A token whose word fits a row: kept, or moved down to the left edge without its spaces.
  function ShortWalk(left: nat, x: U16, lead: nat, word: nat): Stop {
    if x + Wrap16(lead) + Wrap16(word) > RIGHT && x > left then Stop(1, Wrap16(left + word))
    else Stop(0, Wrap16(x + Wrap16(lead) + word))
  }

  function ProseWalk(left: nat, p: nat, x: U16, t: seq<bv8>, i: nat): Stop
    requires Chunked(t, i)
    decreases |t| - i
  {
    if i < |t| then
      TokenBounds(t, i);
      var sp := SkipBlankish(t, i);
      var e := WordEnd(t, sp);
      var a := TokenWalk(left, p, x, sp - i, ChunkCount(t, sp, e));
      var b := ProseWalk(left, p, a.x, t, e);
      Stop(a.rows + b.rows, b.x)
    else Stop(0, x)
  }

  // A literal run stays on its row and stops at the margin.
  function LiteralWalk(x: U16, t: seq<bv8>, k: nat): U16
    decreases |t| - k
  {
    if k < |t| && x + FONT_ADVANCE <= RIGHT then LiteralWalk(x + FONT_ADVANCE, t, k + SeqLen(t[k])) else x
  }

  /** Where a run leaves the pen it finds. */
  function RunWalk(pen: Pen, t: seq<bv8>): Stop
    requires Chunked(t, 0)
  {
    var s := Layout(pen, []);
    if pen.literal then Stop(0, LiteralWalk(ToMargin(s).pen.x, t, 0))
    else ProseWalk(Indent(s), Pace(s), PullBack(s).pen.x, t, 0)
  }

  // ---- The renderer does just that ------------------------------------

  /** From a, the pen has moved `rows` rows down and to column x, and nothing else of it has changed. */
  predicate WentTo(g: Page, a: Pen, b: Pen, rows: nat, x: U16) {
    b == a.(y := b.y, x := x, rowOpen := b.rowOpen) && b.y == a.y + rows * RowHeight(g, Layout(a, []))
  }

  lemma WentOn(g: Page, a: Pen, b: Pen, c: Pen, m: nat, x: U16, n: nat, z: U16)
    requires WentTo(g, a, b, m, x) && WentTo(g, b, c, n, z)
    ensures WentTo(g, a, c, m + n, z)
  {
    Distributes(m, n, RowHeight(g, Layout(a, [])));
  }

  lemma PenOnly(g: Page, s: Layout)
    ensures Pace(s) == Pace(Layout(s.pen, [])) && Indent(s) == Indent(Layout(s.pen, []))
    ensures RowHeight(g, s) == RowHeight(g, Layout(s.pen, []))
  {
  }

  lemma CellStays(g: Page, s: Layout, bytes: seq<bv8>, invert: bool)
    ensures CellOf(g, s, bytes, invert).pen == s.pen && PutGlyph(g, s, bytes, invert).pen == s.pen
  {
  }

  lemma WrapSelf(x: U16)
    ensures Wrap16(x) == x
  {
  }

  lemma WrapTwice(x: nat, p: nat, r: nat)
    ensures Wrap16(Wrap16(x + p) + r) == Wrap16(x + (p + r))
  {
  }

  lemma CountTimes(t: seq<bv8>, k: nat, e: nat, p: nat)
    requires k < e <= |t|
    ensures ChunkCount(t, k, e) * p == p + ChunkCount(t, k + SeqLen(t[k]), e) * p
  {
    hide SeqLen;
    Distributes(1, ChunkCount(t, k + SeqLen(t[k]), e), p);
  }

  lemma {:induction false} WordWalks(g: Page, s: Layout, t: seq<bv8>, k: nat, e: nat, invert: bool)
    requires e <= |t|
    ensures var b := Word(g, s, t, k, e, invert).pen;
      b == s.pen.(x := Wrap16(s.pen.x + ChunkCount(t, k, e) * Pace(s)), rowOpen := s.pen.rowOpen || k < e)
    decreases e - k
  {
    hide CellOf, Pace, SeqLen, Moved, Wrap16;
    if k < e {
      var m := CellStep(g, s, ChunkAt(t, k), invert);
      CountTimes(t, k, e, Pace(s));
      WordWalks(g, m, t, k + SeqLen(t[k]), e, invert);
      WrapTwice(s.pen.x, Pace(s), ChunkCount(t, k + SeqLen(t[k]), e) * Pace(s));
    } else {
      assert ChunkCount(t, k, e) * Pace(s) == 0;
      WrapSelf(s.pen.x);
    }
  }

  lemma CellStep(g: Page, s: Layout, bytes: seq<bv8>, invert: bool) returns (m: Layout)
    ensures m == Moved(CellOf(g, s, bytes, invert), Pace(s)) && Pace(m) == Pace(s)
    ensures m.pen == s.pen.(x := Wrap16(s.pen.x + Pace(s)), rowOpen := true)
  {
    hide CellOf, Pace;
    CellStays(g, s, bytes, invert);
    m := Moved(CellOf(g, s, bytes, invert), Pace(s));
    SamePace(s, m);
  }

  lemma SamePace(a: Layout, b: Layout)
    requires a.pen.head == b.pen.head && a.pen.bold == b.pen.bold && a.pen.depth == b.pen.depth
    ensures Pace(a) == Pace(b) && Indent(a) == Indent(b)
  {
  }

  lemma {:induction false} LongWalks(g: Page, s: Layout, t: seq<bv8>, k: nat, e: nat, invert: bool)
    requires e <= |t|
    ensures var w := LongWalk(Indent(s), Pace(s), s.pen.x, ChunkCount(t, k, e));
      WentTo(g, s.pen, LongWord(g, s, t, k, e, invert).pen, w.rows, w.x)
    decreases e - k
  {
    hide Pace, Indent, SeqLen, WentTo, WrapIfNeeded, Moved, PutGlyph, Wrap16;
    StaysPut(g, s.pen);
    if k < e {
      var m := LongStep(g, s, ChunkAt(t, k), invert);
      var next := k + SeqLen(t[k]);
      var rest := LongWalk(Indent(s), Pace(s), m.pen.x, ChunkCount(t, next, e));
      LongWalks(g, m, t, next, e, invert);
      WentOn(g, s.pen, m.pen, LongWord(g, m, t, next, e, invert).pen,
             if s.pen.x > Indent(s) && s.pen.x + Pace(s) > RIGHT then 1 else 0, m.pen.x, rest.rows, rest.x);
    }
  }

  lemma LongStep(g: Page, s: Layout, bytes: seq<bv8>, invert: bool) returns (m: Layout)
    ensures m == Moved(PutGlyph(g, WrapIfNeeded(g, s, Pace(s)), bytes, invert), Pace(WrapIfNeeded(g, s, Pace(s))))
    ensures Pace(m) == Pace(s) && Indent(m) == Indent(s)
    ensures m.pen.x == Wrap16((if s.pen.x > Indent(s) && s.pen.x + Pace(s) > RIGHT then Indent(s) else s.pen.x) + Pace(s))
    ensures WentTo(g, s.pen, m.pen, if s.pen.x > Indent(s) && s.pen.x + Pace(s) > RIGHT then 1 else 0, m.pen.x)
  {
    hide PutGlyph, Pace, Indent, WentTo, WrapIfNeeded, Moved;
    var s1 := WrapIfNeeded(g, s, Pace(s));
    WrapPen(g, s, Pace(s));
    SamePace(s, s1);
    CellStays(g, s1, bytes, invert);
    var c := PutGlyph(g, s1, bytes, invert);
    m := Moved(c, Pace(s1));
    MovedPen(c, Pace(s1));
    MovedPen(s1, Pace(s));
    SamePace(s, m);
    StepAlong(g, s, Pace(s), m);
  }

  lemma MovedPen(s: Layout, w: nat)
    ensures Moved(s, w).pen == s.pen.(x := Wrap16(s.pen.x + w), rowOpen := true)
  {
  }

  lemma WrapPen(g: Page, s: Layout, w: nat)
    ensures WrapIfNeeded(g, s, w).pen.x == if s.pen.x > Indent(s) && s.pen.x + w > RIGHT then Indent(s) else s.pen.x
    ensures var b := WrapIfNeeded(g, s, w).pen; b == s.pen.(x := b.x, y := b.y, rowOpen := b.rowOpen)
  {
  }

  lemma StaysPut(g: Page, pen: Pen)
    ensures WentTo(g, pen, pen, 0, pen.x)
  {
  }

  lemma StepAlong(g: Page, s: Layout, w: nat, m: Layout)
    requires m.pen == Moved(WrapIfNeeded(g, s, w), w).pen
    ensures WentTo(g, s.pen, m.pen, if s.pen.x > Indent(s) && s.pen.x + w > RIGHT then 1 else 0, m.pen.x)
  {
    PenOnly(g, s);
  }

  lemma LeadWalks(g: Page, s: Layout, leadW: nat, invert: bool)
    ensures Lead(g, s, leadW, invert).pen == s.pen.(x := Wrap16(s.pen.x + leadW), rowOpen := true)
  {
  }

  lemma {:induction false} BlanksCount(t: seq<bv8>, i: nat, sp: nat, e: nat)
    requires i <= sp <= e <= |t| && forall j :: i <= j < sp ==> Blankish(t[j])
    ensures ChunkCount(t, i, e) == (sp - i) + ChunkCount(t, sp, e)
    decreases sp - i
  {
    if i < sp {
      assert SeqLen(t[i]) == 1;
      BlanksCount(t, i + 1, sp, e);
    }
  }

  lemma TokenWalks(g: Page, s: Layout, t: seq<bv8>, i: nat, sp: nat, e: nat, invert: bool)
    requires i <= sp <= e <= |t| && forall j :: i <= j < sp ==> Blankish(t[j])
    ensures var w := TokenWalk(Indent(s), Pace(s), s.pen.x, sp - i, ChunkCount(t, sp, e));
      WentTo(g, s.pen, Token(g, s, t, i, sp, e, invert).pen, w.rows, w.x)
  {
    BlanksCount(t, i, sp, e);
    hide WentTo, Pace, Indent, ChunkCount, LongWord, LongWalk;
    if WordWidth(s, t, sp, e) > Usable(s) {
      LongWalks(g, s, t, i, e, invert);
    } else {
      TokenPen(g, s, t, i, sp, e, invert);
    }
  }

  lemma TokenPen(g: Page, s: Layout, t: seq<bv8>, i: nat, sp: nat, e: nat, invert: bool)
    requires i <= sp <= e <= |t| && WordWidth(s, t, sp, e) <= Usable(s)
    ensures var w := TokenWalk(Indent(s), Pace(s), s.pen.x, sp - i, ChunkCount(t, sp, e));
      WentTo(g, s.pen, Token(g, s, t, i, sp, e, invert).pen, w.rows, w.x)
  {
    hide Word, LongWord, Lead, ChunkCount, Pace, Indent, WentTo, Newline;
    var leadW, wordW := LeadWidth(s, i, sp), WordWidth(s, t, sp, e);
    if s.pen.x + leadW + wordW > RIGHT && s.pen.x > Indent(s) {
      WordBelow(g, s, t, sp, e, invert);
    } else if leadW != 0 {
      LeadWalks(g, s, leadW, invert);
      WordFrom(g, s, Lead(g, s, leadW, invert), t, sp, e, invert);
      WrapTwice(s.pen.x, leadW, ChunkCount(t, sp, e) * Pace(s));
    } else {
      WordFrom(g, s, s, t, sp, e, invert);
    }
  }

  lemma WordFrom(g: Page, s: Layout, s1: Layout, t: seq<bv8>, sp: nat, e: nat, invert: bool)
    requires sp <= e <= |t| && s1.pen == s.pen.(x := s1.pen.x, rowOpen := s1.pen.rowOpen)
    ensures WentTo(g, s.pen, Word(g, s1, t, sp, e, invert).pen, 0, Wrap16(s1.pen.x + ChunkCount(t, sp, e) * Pace(s)))
  {
    hide Word, ChunkCount, Pace, WentTo;
    SamePace(s, s1);
    WordWalks(g, s1, t, sp, e, invert);
    Along(g, s, Word(g, s1, t, sp, e, invert).pen);
  }

  lemma WordBelow(g: Page, s: Layout, t: seq<bv8>, sp: nat, e: nat, invert: bool)
    requires sp <= e <= |t|
    ensures WentTo(g, s.pen, Word(g, Newline(g, s), t, sp, e, invert).pen, 1, Wrap16(Indent(s) + ChunkCount(t, sp, e) * Pace(s)))
  {
    hide Word, ChunkCount, Pace, WentTo, RowHeight, Indent;
    var n := Newline(g, s);
    SamePace(s, n);
    WordWalks(g, n, t, sp, e, invert);
    OneDown(g, s, Word(g, n, t, sp, e, invert).pen);
  }

  lemma OneDown(g: Page, s: Layout, b: Pen)
    requires b == s.pen.(y := s.pen.y + RowHeight(g, s), x := b.x, rowOpen := b.rowOpen)
    ensures WentTo(g, s.pen, b, 1, b.x)
  {
    PenOnly(g, s);
  }

  lemma Along(g: Page, s: Layout, b: Pen)
    requires b == s.pen.(x := b.x, rowOpen := b.rowOpen)
    ensures WentTo(g, s.pen, b, 0, b.x)
  {
  }

  lemma {:induction false} ProseWalks(g: Page, s: Layout, t: seq<bv8>, i: nat, invert: bool)
    requires Chunked(t, i)
    ensures var w := ProseWalk(Indent(s), Pace(s), s.pen.x, t, i);
      WentTo(g, s.pen, Tokens(g, s, t, i, invert).pen, w.rows, w.x)
    decreases |t| - i
  {
    hide Token, WentTo, Pace, Indent, TokenWalk, ChunkCount;
    StaysPut(g, s.pen);
    if i < |t| {
      TokenBounds(t, i);
      SkipBlankishBounds(t, i);
      var sp := SkipBlankish(t, i);
      var e := WordEnd(t, sp);
      var s1 := Token(g, s, t, i, sp, e, invert);
      TokenWalks(g, s, t, i, sp, e, invert);
      var a := TokenWalk(Indent(s), Pace(s), s.pen.x, sp - i, ChunkCount(t, sp, e));
      WentKeeps(g, s, s1, a.rows, a.x);
      ProseWalks(g, s1, t, e, invert);
      var b := ProseWalk(Indent(s), Pace(s), a.x, t, e);
      WentOn(g, s.pen, s1.pen, Tokens(g, s1, t, e, invert).pen, a.rows, a.x, b.rows, b.x);
    }
  }

  lemma WentKeeps(g: Page, a: Layout, b: Layout, rows: nat, x: U16)
    requires WentTo(g, a.pen, b.pen, rows, x)
    ensures Pace(b) == Pace(a) && Indent(b) == Indent(a) && RowHeight(g, b) == RowHeight(g, a) && b.pen.x == x
    ensures b.pen.y >= a.pen.y && (rows == 0 ==> b.pen.y == a.pen.y)
    ensures rows > 0 ==> b.pen.y >= a.pen.y + RowHeight(g, a)
    ensures b.pen.literal == a.pen.literal && b.pen.head == a.pen.head && b.pen.rowH == a.pen.rowH && b.pen.depth == a.pen.depth
  {
    PenOnly(g, a);
    if rows > 0 {
      Grows(1, rows, RowHeight(g, a));
    }
  }

  lemma {:induction false} LiteralWalks(g: Page, s: Layout, t: seq<bv8>, k: nat, invert: bool)
    ensures WentTo(g, s.pen, LiteralFrom(g, s, t, k, invert).pen, 0, LiteralWalk(s.pen.x, t, k))
    decreases |t| - k
  {
    hide WentTo;
    StaysPut(g, s.pen);
    if k < |t| {
      LiteralCellPen(g, s, ChunkAt(t, k), invert);
      if s.pen.x + FONT_ADVANCE > RIGHT {
        Along(g, s, Clipped(g, s, invert).pen);
      } else {
        var c := LiteralCellOf(g, s, ChunkAt(t, k), invert);
        LiteralWalks(g, c, t, k + SeqLen(t[k]), invert);
        Along(g, s, c.pen);
        WentOn(g, s.pen, c.pen, LiteralFrom(g, c, t, k + SeqLen(t[k]), invert).pen, 0, c.pen.x, 0, LiteralWalk(c.pen.x, t, k + SeqLen(t[k])));
      }
    }
  }

  lemma LiteralCellPen(g: Page, s: Layout, bytes: seq<bv8>, invert: bool)
    ensures Clipped(g, s, invert).pen == s.pen.(rowOpen := true)
    ensures s.pen.x + FONT_ADVANCE <= RIGHT ==>
      LiteralCellOf(g, s, bytes, invert).pen == s.pen.(x := s.pen.x + FONT_ADVANCE, rowOpen := true)
  {
    hide Put;
    var fill := Fill(RIGHT - FONT_ADVANCE, FONT_ADVANCE, RowHeight(g, s), invert);
    PutPen(g, s, fill);
    PutPen(g, Put(g, s, fill), Symbol(RIGHT - FONT_ADVANCE, [0xC2, 0xBB], !invert));
    var bg := Fill(s.pen.x, FONT_ADVANCE, RowHeight(g, s), true);
    PutPen(g, s, bg);
    PutPen(g, PutIf(g, s, invert, bg), Glyph(Body, s.pen.x, bytes, !invert));
  }

  lemma PutPen(g: Page, s: Layout, shape: Shape)
    ensures Put(g, s, shape).pen == s.pen
  {
  }

  /** The renderer moves its pen exactly as the walk says, in every view and whatever it draws. */
  lemma RunWalks(g: Page, s: Layout, t: seq<bv8>, invert: bool)
    requires Chunked(t, 0)
    ensures var w := RunWalk(s.pen, t); WentTo(g, s.pen, EmitRun(g, s, t, invert).pen, w.rows, w.x)
  {
    hide WentTo, Pace, Tokens, LiteralFrom, ProseWalk, LiteralWalk, RowHeight, Indent;
    SamePace(s, Layout(s.pen, []));
    var a := if s.pen.literal then ToMargin(s) else PullBack(s);
    SamePace(s, a);
    Along(g, s, a.pen);
    if s.pen.literal {
      LiteralWalks(g, a, t, 0, invert);
      WentOn(g, s.pen, a.pen, EmitRun(g, s, t, invert).pen, 0, a.pen.x, 0, LiteralWalk(a.pen.x, t, 0));
    } else {
      ProseWalks(g, a, t, 0, invert);
      var w := ProseWalk(Indent(a), Pace(a), a.pen.x, t, 0);
      WentOn(g, s.pen, a.pen, EmitRun(g, s, t, invert).pen, 0, a.pen.x, w.rows, w.x);
    }
  }
}
