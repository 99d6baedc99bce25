// What one frame leaves behind for the next, and which pages can tell.
module Frames {
  import opened Geometry
  import opened Utf8
  import opened Chunks
  import opened TableFit
  import opened LayoutTypes
  import opened LayoutSpec
  import opened LayoutWalk
  import opened LayoutTables
  import opened LayoutHeights
  import opened LayoutRows
  import opened LayoutUniform
  import opened LayoutInputs

  /** The pen a frame starts from: what begin resets, and what it leaves. */
  function Begun(pen: Pen): Pen {
    pen.(y := 0, x := 0, rowOpen := false, depth := 0, invert := false, blankPending := true)
  }

  /** The state a frame starts from. */
  function Frame(pen: Pen): Layout {
    Layout(Begun(pen), [])
  }

  ghost predicate IsPage(cbs: seq<Callback>) {
    forall i :: 0 <= i < |cbs| ==> WellFormed(cbs[i])
  }

  // ---- What is left behind --------------------------------------------

  /** No background reads as white. */
  predicate BgOk(pen: Pen) {
    pen.hasBg || pen.bgLuma == 255
  }

  /** What holds of every pen a frame can end with. */
  predicate Reachable(g: Page, pen: Pen) {
    FaceOk(g, pen) && BgOk(pen)
  }

  /** A pen whose last line was ended. */
  predicate Clean(pen: Pen) {
    pen.head == 0 && pen.rowH == 0 && !pen.bold && !pen.headRule
  }

  /** The parts of the pen that begin leaves as they are. */
  predicate SameLeft(a: Pen, b: Pen) {
    && b.literal == a.literal && b.hasBg == a.hasBg && b.bgLuma == a.bgLuma && b.underline == a.underline
    && b.head == a.head && b.rowH == a.rowH && b.bold == a.bold && b.headRule == a.headRule
  }

  lemma FieldLeaves(g: Page, s: Layout, f: Field, style: Style)
    requires Chunked(f.caption, 0)
    ensures SameLeft(s.pen, OnField(g, s, f, style).pen)
  {
    hide EmitRun, OnMark, OnTextField;
    var s1 := ToMargin(Deepened(s, style.depth));
    FieldColsKeepPen(g, s1, f, style);
    MarkPen(g, s1, f);
    TwoLeave(g, OnMark(g, s1, f), OneSpace(), f.caption);
  }

  lemma TwoLeave(g: Page, s: Layout, t: seq<bv8>, u: seq<bv8>)
    requires Chunked(t, 0) && Chunked(u, 0)
    ensures var s1 := EmitRun(g, s, t, s.pen.invert); SameLeft(s.pen, s1.pen) && SameLeft(s.pen, EmitRun(g, s1, u, s1.pen.invert).pen)
  {
    hide EmitRun;
    RunKeepsPen(g, s, t, s.pen.invert);
    var s1 := EmitRun(g, s, t, s.pen.invert);
    RunKeepsPen(g, s1, u, s1.pen.invert);
  }

  lemma LinkLeaves(g: Page, s: Layout, caption: seq<bv8>, target: seq<bv8>, style: Style)
    requires Chunked(caption, 0)
    ensures SameLeft(s.pen, OnLink(g, s, caption, target, style).pen)
  {
    hide EmitRun;
    var s1 := ToMargin(Deepened(s, style.depth));
    LinkPen(g, s, caption, target, style);
    RunKeepsPen(g, s1, caption, s1.pen.invert);
  }

  lemma TableLeaves(g: Page, s: Layout, rows: seq<Row>, widths: seq<nat>)
    requires TableShape(rows, widths)
    ensures SameLeft(s.pen, TableFlush(g, s, rows, widths).pen)
  {
    hide TableFlush, Fitted, RowsY;
    if rows == [] || widths == [] {
      FlushOfNothing(s, rows, widths);
    } else {
      FlushWalks(g, s, rows, widths);
    }
  }

  lemma PartialLeaves(g: Page, s: Layout, url: seq<bv8>, style: Style)
    requires Chunked(url, 0)
    ensures SameLeft(s.pen, OnPartial(g, s, url, style).pen)
  {
    hide EmitRun, OnLink;
    var s1 := Deepened(s, style.depth);
    RunKeepsPen(g, s1, PartialTag(), s1.pen.invert);
    LinkLeaves(g, EmitRun(g, s1, PartialTag(), s1.pen.invert), url, url, style);
  }

  /** Only text and line ends change what a frame will leave behind. */
  lemma OthersLeaveIt(g: Page, s: Layout, cb: Callback)
    requires WellFormed(cb) && !cb.Text? && !cb.LineEnd?
    ensures SameLeft(s.pen, Step(g, s, cb).pen)
  {
    hide EmitRun, OnLink, DividerFrom, DividerBytes, OnField, TableFlush, OnPartial, Natural;
    match cb
    case LinkTo(caption, target, style) => LinkLeaves(g, s, caption, target, style);
    case Divider(ch, style) => DividerStays(g, ToMargin(Deepened(s, style.depth)), Indent(Deepened(s, style.depth)), DividerBytes(ch));
    case FieldOf(f, style) => FieldLeaves(g, s, f, style);
    case Table(rows, widths, style) => TableLeaves(g, Deepened(s, style.depth), rows, widths);
    case Image(alt, url, style) => TwoLeave(g, Deepened(s, style.depth), ImageTag(), if alt != [] then alt else url);
    case Partial(url, style) => PartialLeaves(g, s, url, style);
    case Blank =>
  }

  lemma LineEndIsClean(g: Page, s: Layout, style: Style)
    ensures var b := Step(g, s, LineEnd(style)).pen;
      Clean(b) && b.literal == s.pen.literal && b.hasBg == s.pen.hasBg && b.bgLuma == s.pen.bgLuma && b.underline == s.pen.underline
  {
    hide PutIf, RuleWidth, Closed, RowHeight, Indent;
    var s1 := Deepened(s, style.depth);
    var rule := Rule(Indent(s1), RowHeight(g, s1) - 1, RuleWidth(s1, style), true);
    PutIfKeeps(g, s1, s1.pen.headRule && s1.pen.rowOpen, rule);
    ClosedIsClean(g, PutIf(g, s1, s1.pen.headRule && s1.pen.rowOpen, rule), style, s.pen.head);
  }

  lemma ClosedIsClean(g: Page, s: Layout, style: Style, head: nat)
    ensures var b := Closed(g, s, style, head).pen;
      Clean(b) && b.literal == s.pen.literal && b.hasBg == s.pen.hasBg && b.bgLuma == s.pen.bgLuma && b.underline == s.pen.underline
  {
  }

  lemma PutIfKeeps(g: Page, s: Layout, when: bool, shape: Shape)
    ensures PutIf(g, s, when, shape).pen == s.pen
  {
  }

  lemma StyledReachable(g: Page, s: Layout, t: seq<bv8>, style: Style)
    requires Reachable(g, s.pen)
    ensures Reachable(g, Styled(g, s, t, style).pen)
  {
    StyledPen(g, s, t, style);
    hide AlignedX, TakesHead, FaceOk;
  }

  lemma StepReachable(g: Page, s: Layout, cb: Callback)
    requires WellFormed(cb) && Reachable(g, s.pen)
    ensures Reachable(g, Step(g, s, cb).pen)
  {
    match cb
    case Text(t, style) =>
      hide EmitRun, Styled;
      StyledReachable(g, s, t, style);
      RunKeepsPen(g, Styled(g, s, t, style), t, Styled(g, s, t, style).pen.invert);
    case LineEnd(style) =>
      hide Step;
      LineEndIsClean(g, s, style);
    case _ =>
      hide Step, Natural;
      OthersLeaveIt(g, s, cb);
  }

  lemma {:induction false} RunReachable(g: Page, s: Layout, cbs: seq<Callback>)
    requires IsPage(cbs) && Reachable(g, s.pen)
    ensures Reachable(g, Run(g, s, cbs).pen)
    decreases |cbs|
  {
    hide Reachable, Step, WellFormed;
    if cbs != [] {
      StepReachable(g, s, cbs[0]);
      RunReachable(g, Step(g, s, cbs[0]), cbs[1..]);
    }
  }

  /** The pen after a history of frames, each a page at a scroll offset. */
  ghost function After(cfg: Config, frames: seq<(U16, seq<Callback>)>): Pen
    requires forall i :: 0 <= i < |frames| ==> IsPage(frames[i].1)
    decreases |frames|
  {
    if frames == [] then Fresh().pen
    else
      var last := frames[|frames| - 1];
      assert IsPage(frames[|frames| - 1].1);
      Run(In(cfg, last.0), Frame(After(cfg, frames[..|frames| - 1])), last.1).pen
  }

  /** Whatever a renderer has drawn so far, its pen is of that kind. */
  lemma {:induction false} HistoryIsReachable(cfg: Config, frames: seq<(U16, seq<Callback>)>, g: Page)
    requires (forall i :: 0 <= i < |frames| ==> IsPage(frames[i].1)) && g.cfg == cfg
    ensures Reachable(g, After(cfg, frames))
    decreases |frames|
  {
    hide Run, IsPage;
    if frames != [] {
      var last := frames[|frames| - 1];
      HistoryIsReachable(cfg, frames[..|frames| - 1], In(cfg, last.0));
      RunReachable(In(cfg, last.0), Frame(After(cfg, frames[..|frames| - 1])), last.1);
    }
  }

  /** Of such a pen seven things outlive begin: literal mode, the background, the underline, the heading's face
      with its row height, bold, and the rule still to be drawn. */
  lemma WhatIsLeft(g: Page, pen: Pen)
    requires Reachable(g, pen)
    ensures Frame(pen) == Fresh() <==> !pen.literal && !pen.hasBg && !pen.underline && pen.head == 0 && !pen.bold && !pen.headRule
  {
  }

  /** Once a page's last line was ended, whatever the page, only three of them are. */
  lemma EndedPagesLeaveThree(g: Page, pen: Pen, cbs: seq<Callback>, end: Style)
    requires Reachable(g, pen) && IsPage(cbs)
    ensures var last := Run(g, Frame(pen), cbs);
      Frame(Step(g, last, LineEnd(end)).pen) == Fresh() <==> !last.pen.literal && !last.pen.hasBg && !last.pen.underline
  {
    hide Step, Run;
    var last := Run(g, Frame(pen), cbs);
    RunReachable(g, Frame(pen), cbs);
    LineEndIsClean(g, last, end);
    WhatIsLeft(g, Step(g, last, LineEnd(end)).pen);
  }

  /** Each of them is left by one letter of text whose line is not ended, as its style has it. */
  lemma TextLeaves(g: Page, style: Style)
    ensures var b := Step(g, Fresh(), Text(Letter(), style)).pen;
      && b.literal == style.literal && b.hasBg == HasBg(style.bg) && b.underline == style.underline
      && b.head == (if TakesHead(g, false, Letter(), style) then HeadWanted(style.depth) else 0)
      && b.bold == (style.bold && b.head == 0)
      && b.headRule == (g.cfg.stepped && style.heading && style.depth >= 2 && b.head == 0)
  {
    hide EmitRun, AlignedX, TakesHead, HasBg, Luma;
    var s := Styled(g, Fresh(), Letter(), style);
    RunKeepsPen(g, s, Letter(), s.pen.invert);
  }

  // ---- Text forgets ---------------------------------------------------

  /** Two frames: the first ends its last line, however it got there; the second opens with text. It is what
      it would have been on a fresh renderer, to its last draw: everything begin leaves is set again before
      it is read. */
  lemma TextForgetsTheLastFrame(g: Page, last: Layout, end: Style, t: seq<bv8>, style: Style, rest: seq<Callback>)
    requires Chunked(t, 0) && forall i :: 0 <= i < |rest| ==> WellFormed(rest[i])
    ensures var before := Step(g, last, LineEnd(end)).pen; var cbs := [Text(t, style)] + rest;
      (forall i :: 0 <= i < |cbs| ==> WellFormed(cbs[i])) && Run(g, Frame(before), cbs) == Run(g, Fresh(), cbs)
  {
    var before := Step(g, last, LineEnd(end)).pen;
    LineEndIsClean(g, last, end);
    hide EmitRun, Styled, WellFormed;
    StyledForgets(g, before, t, style);
    var cbs := [Text(t, style)] + rest;
    assert WellFormed(cbs[0]) by { TextWellFormed(t, style); }
    assert cbs[1..] == rest;
  }

  lemma TextWellFormed(t: seq<bv8>, style: Style)
    requires Chunked(t, 0)
    ensures WellFormed(Text(t, style))
  {
  }

  lemma StyledForgets(g: Page, pen: Pen, t: seq<bv8>, style: Style)
    requires pen.head == 0 && pen.rowH == 0
    ensures Styled(g, Frame(pen), t, style) == Styled(g, Fresh(), t, style)
  {
    hide Aligned, Headed, Backed, Faced, Started, Marked;
    StyledParts(g, Frame(pen), t, style);
    StyledParts(g, Fresh(), t, style);
    var a, b := Aligned(Started(Frame(pen), style), t, style.align), Aligned(Started(Fresh(), style), t, style.align);
    BackedForgets(pen, t, style);
    HeadedKeepsMarks(g, Backed(b, style), t, style, pen.headRule, pen.underline, pen.bold);
    FacedForgets(g, Headed(g, Backed(b, style), t, style), style, pen.headRule, pen.underline, pen.bold);
  }

  lemma BackedForgets(pen: Pen, t: seq<bv8>, style: Style)
    requires pen.head == 0 && pen.rowH == 0
    ensures var a, b := Aligned(Started(Frame(pen), style), t, style.align), Aligned(Started(Fresh(), style), t, style.align);
      Backed(a, style) == Marked(Backed(b, style), pen.headRule, pen.underline, pen.bold)
  {
    hide AlignedX, Luma, HasBg;
    AlignedAlike(Started(Frame(pen), style), Started(Fresh(), style), t, style.align);
  }

  lemma FacedForgets(g: Page, s: Layout, style: Style, headRule: bool, underline: bool, bold: bool)
    ensures Faced(g, Marked(s, headRule, underline, bold), style) == Faced(g, s, style)
  {
    hide HasBg, Luma;
  }

  function Marked(s: Layout, headRule: bool, underline: bool, bold: bool): Layout {
    s.(pen := s.pen.(headRule := headRule, underline := underline, bold := bold))
  }

  lemma HeadedKeepsMarks(g: Page, s: Layout, t: seq<bv8>, style: Style, headRule: bool, underline: bool, bold: bool)
    ensures Headed(g, Marked(s, headRule, underline, bold), t, style) == Marked(Headed(g, s, t, style), headRule, underline, bold)
  {
    hide TakesHead, FaceHeight, HeadFace, HeadWanted;
  }

  lemma AlignedAlike(a: Layout, b: Layout, t: seq<bv8>, align: Align)
    requires a.pen.x == b.pen.x && a.pen.depth == b.pen.depth && a.pen.rowOpen == b.pen.rowOpen && Pace(a) == Pace(b)
    ensures AlignedX(a, t, align) == AlignedX(b, t, align)
  {
    assert Indent(a) == Indent(b);
    hide Pace, Cells, Wrap16, Indent;
  }

  // ---- How many draws a run makes -------------------------------------

  predicate Shows(g: Page, s: Layout) {
    Seen(g.view, s.pen.y)
  }

  /** Draws a cell of the run takes. */
  function PerCell(s: Layout, invert: bool): nat {
    1 + (if s.pen.hasBg || invert then 1 else 0) + (if s.pen.underline then 1 else 0)
  }

  lemma CellDraws(g: Page, s: Layout, bytes: seq<bv8>, invert: bool)
    requires Shows(g, s) && !(|bytes| == 1 && Blankish(bytes[0]))
    ensures |CellOf(g, s, bytes, invert).log| == |s.log| + PerCell(s, invert) && CellOf(g, s, bytes, invert).pen == s.pen
  {
  }

  lemma {:induction false} WordDraws(g: Page, s: Layout, t: seq<bv8>, k: nat, e: nat, invert: bool)
    requires Shows(g, s) && e <= |t| && NoBlanks(t, k, e)
    ensures |Word(g, s, t, k, e, invert).log| == |s.log| + ChunkCount(t, k, e) * PerCell(s, invert)
    decreases e - k
  {
    hide CellOf, Pace;
    if k < e {
      CellDraws(g, s, ChunkAt(t, k), invert);
      var m := Moved(CellOf(g, s, ChunkAt(t, k), invert), Pace(s));
      CountTimes(t, k, e, PerCell(s, invert));
      WordDraws(g, m, t, k + SeqLen(t[k]), e, invert);
    }
  }

  lemma LeadDraws(g: Page, s: Layout, leadW: nat, invert: bool)
    ensures |Lead(g, s, leadW, invert).log| >= |s.log|
    ensures !s.pen.hasBg && !s.pen.underline ==> Lead(g, s, leadW, invert).log == s.log
  {
  }

  /** A space and a letter: the shortest run that tells every leftover apart. */
  function SpaceLetter(): (t: seq<bv8>)
    ensures Chunked(t, 0) && t == [0x20, 0x61]
  {
    Ascii([0x20, 0x61])
  }

  /** The face in which a letter comes out when nothing sets it anew. */
  function LeftFace(pen: Pen): Face {
    if 1 <= pen.head <= 3 then HeadFace(pen.head) else if pen.bold then BoldInline else Body
  }

  /** A page whose inline bold carries the letter. */
  predicate BoldLetters(cfg: Config) {
    cfg.has(BoldInline, NextCp([0x61], 0).0)
  }

  predicate Plain(pen: Pen) {
    !pen.literal && !pen.hasBg && !pen.underline
  }

  // One letter shows literal mode, background and underline in the number of its draws, and the rest in its
  // face.
  lemma LetterShows(g: Page, s: Layout)
    requires (s.pen.rowOpen || s.pen.x >= Indent(s)) && s.pen.x < 200 && Shows(g, s) && BoldLetters(g.cfg)
    ensures var b := EmitRun(g, s, Letter(), false);
      && b.pen.rowOpen && |b.log| == |s.log| + (if s.pen.literal then 1 else PerCell(s, false)) && s.log <= b.log
      && (Plain(s.pen) ==> b.log[|s.log|].shape.Glyph? && b.log[|s.log|].shape.face == LeftFace(s.pen))
      && b.pen.y == s.pen.y
  {
    hide CellOf, LiteralCellOf;
    var t := Letter();
    if s.pen.literal {
      var a := ToMargin(s);
      assert SeqLen(t[0]) == 1;
      LiteralCellDraws(g, a, ChunkAt(t, 0));
      var c := LiteralCellOf(g, a, ChunkAt(t, 0), false);
      assert LiteralFrom(g, c, t, 1, false) == c;
    } else {
      OneLetter(g, s, false);
      CellDraws(g, s, [0x61], false);
      CellShows(g, s);
    }
  }

  lemma CellShows(g: Page, s: Layout)
    requires Shows(g, s) && BoldLetters(g.cfg)
    ensures var b := CellOf(g, s, [0x61], false);
      s.log <= b.log && (!s.pen.hasBg && !s.pen.underline ==>
        |b.log| == |s.log| + 1 && b.log[|s.log|].shape.Glyph? && b.log[|s.log|].shape.face == LeftFace(s.pen))
  {
  }

  lemma LiteralCellDraws(g: Page, s: Layout, bytes: seq<bv8>)
    requires s.pen.x < 300 && Shows(g, s)
    ensures var b := LiteralCellOf(g, s, bytes, false);
      |b.log| == |s.log| + 1 && s.log <= b.log && b.pen == s.pen.(x := s.pen.x + FONT_ADVANCE, rowOpen := true)
  {
  }

  lemma OneSpaceDraws(g: Page, s: Layout)
    requires (s.pen.rowOpen || s.pen.x == Indent(s)) && s.pen.x < 100 && Shows(g, s)
    ensures var b := EmitRun(g, s, OneSpace(), false);
      && b.pen == s.pen.(x := b.pen.x, rowOpen := true) && s.pen.x <= b.pen.x <= s.pen.x + 12
      && |b.log| >= |s.log| + (if s.pen.literal then 1 else 0) && (Plain(s.pen) ==> b.log == s.log)
  {
    var t := OneSpace();
    assert SeqLen(t[0]) == 1;
    if s.pen.literal {
      hide LiteralCellOf;
      LiteralCellDraws(g, s, ChunkAt(t, 0));
      var c := LiteralCellOf(g, s, ChunkAt(t, 0), false);
      assert LiteralFrom(g, c, t, 1, false) == c;
    } else {
      SpaceOnly(g, s);
    }
  }

  lemma SpaceOnly(g: Page, s: Layout)
    requires !s.pen.literal && (s.pen.rowOpen || s.pen.x == Indent(s)) && s.pen.x < 100
    ensures EmitRun(g, s, OneSpace(), false) == Lead(g, s, Pace(s), false)
    ensures var b := Lead(g, s, Pace(s), false);
      && b.pen == s.pen.(x := s.pen.x + Pace(s), rowOpen := true) && Pace(s) <= 12
      && |b.log| >= |s.log| && (Plain(s.pen) ==> b.log == s.log)
  {
    var t := OneSpace();
    assert SeqLen(t[0]) == 1;
    assert SkipBlankish(t, 1) == 1 && SkipBlankish(t, 0) == 1 && WordEnd(t, 1) == 1 && ChunkCount(t, 1, 1) == 0;
    assert 6 <= Pace(s) <= 12;
    LeadWalks(g, s, Pace(s), false);
    LeadDraws(g, s, Pace(s), false);
    hide Lead, Pace, LongWord, Newline;
    var l := Lead(g, s, Pace(s), false);
    assert Word(g, l, t, 1, 1, false) == l;
    assert LeadWidth(s, 0, 1) == Pace(s) && WordWidth(s, t, 1, 1) == 0;
    assert Token(g, s, t, 0, 1, 1, false) == l;
    assert Tokens(g, l, t, 1, false) == l;
  }

  // ---- What tells a frame from a fresh one ----------------------------

  /** The first callback of a page, drawn from this pen: more than n draws show literal mode, background or
      underline; otherwise its k-th is a letter in the face that was left. */
  predicate Tells(g: Page, pen: Pen, b: Layout, n: nat, k: nat) {
    && b.pen.rowOpen && SameLeft(pen, b.pen) && b.pen.y == 0 && k < n
    && (!Plain(pen) ==> |b.log| > n)
    && (Plain(pen) ==> |b.log| == n && b.log[k].shape.Glyph? && b.log[k].shape.face == LeftFace(pen))
  }

  function NoStyle(): Style {
    Style(0, Left, Color(true, false, 0, 0, 0), false, false, false, false)
  }

  lemma EndDraws(g: Page, s: Layout)
    requires s.pen.rowOpen && Seen(g.view, s.pen.y)
    ensures var b := Step(g, s, LineEnd(NoStyle()));
      s.log <= b.log && |b.log| == |s.log| + if s.pen.headRule then 1 else 0
  {
  }

  /** A line end after it shows the rest. */
  lemma LeftoversShow(g: Page, pen: Pen, cb: Callback, n: nat, k: nat)
    requires Reachable(g, pen) && Seen(g.view, 0) && WellFormed(cb) && Frame(pen) != Fresh()
    requires Tells(g, pen, Step(g, Frame(pen), cb), n, k) && Tells(g, Fresh().pen, Step(g, Fresh(), cb), n, k)
    ensures var cbs := [cb, LineEnd(NoStyle())];
      IsPage(cbs) && Run(g, Frame(pen), cbs).log != Run(g, Fresh(), cbs).log
  {
    hide Step, Natural;
    WhatIsLeft(g, pen);
    var a, b := Step(g, Frame(pen), cb), Step(g, Fresh(), cb);
    EndDraws(g, a);
    EndDraws(g, b);
    RunTwo(g, Frame(pen), cb, LineEnd(NoStyle()));
    RunTwo(g, Fresh(), cb, LineEnd(NoStyle()));
    var x, y := Step(g, a, LineEnd(NoStyle())).log, Step(g, b, LineEnd(NoStyle())).log;
    assert |y| == n && y[k] == b.log[k];
    if Plain(pen) && LeftFace(pen) != Body {
      assert x[k] == a.log[k];
    }
  }

  ghost predicate Alike(g: Page, pen: Pen, cbs: seq<Callback>)
    requires IsPage(cbs)
  {
    Run(g, Frame(pen), cbs).log == Run(g, Fresh(), cbs).log
  }

  lemma FreshIsReachable(g: Page)
    ensures Reachable(g, Fresh().pen) && Frame(Fresh().pen) == Fresh()
  {
  }

  // ---- Links ----------------------------------------------------------

  lemma SpaceLetterShape()
    ensures var t := SpaceLetter();
      && SkipBlankish(t, 0) == 1 && WordEnd(t, 1) == 2 && ChunkCount(t, 1, 2) == 1 && ChunkAt(t, 1) == [0x61] && SeqLen(t[0]) == 1 && SeqLen(t[1]) == 1
  {
    var t := SpaceLetter();
    assert SeqLen(t[1]) == 1;
    assert SkipBlankish(t, 1) == 1 && WordEnd(t, 2) == 2;
    assert ChunkCount(t, 2, 2) == 0;
  }

  lemma SpaceLetterToken(g: Page, s: Layout)
    requires !s.pen.literal && (s.pen.rowOpen || s.pen.x >= Indent(s)) && s.pen.x < 100
    ensures var l := Lead(g, s, Pace(s), false);
      EmitRun(g, s, SpaceLetter(), false) == Moved(CellOf(g, l, [0x61], false), Pace(l))
      && l.pen == s.pen.(x := s.pen.x + Pace(s), rowOpen := true) && Pace(l) == Pace(s) <= 12
  {
    var t := SpaceLetter();
    SpaceLetterShape();
    assert 6 <= Pace(s) <= 12;
    LeadWalks(g, s, Pace(s), false);
    var l := Lead(g, s, Pace(s), false);
    SamePace(s, l);
    hide Lead, Pace, CellOf, LongWord, Newline, SkipBlankish, WordEnd;
    var m := Moved(CellOf(g, l, [0x61], false), Pace(l));
    assert Word(g, m, t, 2, 2, false) == m;
    assert Word(g, l, t, 1, 2, false) == m;
    assert LeadWidth(s, 0, 1) == Pace(s) && WordWidth(s, t, 1, 2) == Pace(s);
    assert Token(g, s, t, 0, 1, 2, false) == m;
    assert Tokens(g, m, t, 2, false) == m;
    assert Tokens(g, s, t, 0, false) == m;
  }

  lemma SpaceLetterShows(g: Page, s: Layout)
    requires (s.pen.rowOpen || s.pen.x == Indent(s)) && s.pen.x < 100 && Shows(g, s) && BoldLetters(g.cfg)
    ensures var b := EmitRun(g, s, SpaceLetter(), false);
      && b.pen.rowOpen && b.pen.y == s.pen.y
      && (!Plain(s.pen) ==> |b.log| > |s.log| + 1)
      && (Plain(s.pen) ==> |b.log| == |s.log| + 1 && b.log[|s.log|].shape.Glyph? && b.log[|s.log|].shape.face == LeftFace(s.pen))
  {
    var t := SpaceLetter();
    SpaceLetterShape();
    if s.pen.literal {
      hide LiteralCellOf;
      var b := LiteralCellOf(g, s, ChunkAt(t, 0), false);
      LiteralCellDraws(g, s, ChunkAt(t, 0));
      var c := LiteralCellOf(g, b, ChunkAt(t, 1), false);
      LiteralCellDraws(g, b, ChunkAt(t, 1));
      assert LiteralFrom(g, c, t, 2, false) == c;
      assert LiteralFrom(g, b, t, 1, false) == c;
      assert LiteralFrom(g, s, t, 0, false) == c;
    } else {
      hide CellOf, Lead, EmitRun, Pace;
      SpaceLetterToken(g, s);
      LeadDraws(g, s, Pace(s), false);
      var l := Lead(g, s, Pace(s), false);
      CellDraws(g, l, [0x61], false);
      CellShows(g, l);
    }
  }

  lemma LinkTells(g: Page, pen: Pen)
    requires Reachable(g, pen) && Seen(g.view, 0) && BoldLetters(g.cfg)
    ensures Tells(g, pen, Step(g, Frame(pen), LinkTo(SpaceLetter(), [], NoStyle())), 2, 0)
  {
    hide EmitRun;
    var s := ToMargin(Deepened(Frame(pen), 0));
    SpaceLetterShows(g, s);
    RunKeepsPen(g, s, SpaceLetter(), false);
    LinkLeaves(g, Frame(pen), SpaceLetter(), [], NoStyle());
  }

  /** Over every page that opens with a link: the next frame draws what a fresh renderer would exactly when
      nothing is left behind. */
  lemma LinkFirstIff(g: Page, pen: Pen)
    requires Reachable(g, pen) && Seen(g.view, 0) && BoldLetters(g.cfg)
    ensures Frame(pen) == Fresh() <==> forall cbs: seq<Callback> | IsPage(cbs) && cbs != [] && cbs[0].LinkTo? :: Alike(g, pen, cbs)
  {
    hide Step, Run, IsPage, Tells, Reachable;
    var cb := LinkTo(SpaceLetter(), [], NoStyle());
    FreshIsReachable(g);
    LinkTells(g, pen);
    LinkTells(g, Fresh().pen);
    if Frame(pen) != Fresh() {
      LeftoversShow(g, pen, cb, 2, 0);
      assert !Alike(g, pen, [cb, LineEnd(NoStyle())]);
    }
  }

  /** So over every page at all. */
  lemma FramesIndependentIff(g: Page, pen: Pen)
    requires Reachable(g, pen) && Seen(g.view, 0) && BoldLetters(g.cfg)
    ensures Frame(pen) == Fresh() <==> forall cbs: seq<Callback> | IsPage(cbs) :: Alike(g, pen, cbs)
  {
    hide Run, IsPage, Reachable;
    LinkFirstIff(g, pen);
  }

  /** A heading whose line is not ended is enough: its face is still open in the next frame. */
  lemma UnendedHeadingShows(cfg: Config, g: Page, style: Style)
    requires g.cfg == cfg && BigLetters(cfg) && BoldLetters(cfg) && Heading(style) && Seen(g.view, 0)
    ensures var before := Run(g, Fresh(), [Text(Letter(), style)]).pen;
      Plain(before) && exists cbs: seq<Callback> :: IsPage(cbs) && !Alike(g, before, cbs)
  {
    hide Run, IsPage, Reachable, Step;
    var cb := Text(Letter(), style);
    assert WellFormed(cb);
    RunOne(g, Fresh(), cb);
    FreshIsReachable(g);
    StepReachable(g, Fresh(), cb);
    TextLeaves(g, style);
    BigTaken(g, style);
    FramesIndependentIff(g, Step(g, Fresh(), cb).pen);
  }

  lemma BigTaken(g: Page, style: Style)
    requires BigLetters(g.cfg) && Heading(style)
    ensures TakesHead(g, false, Letter(), style)
  {
    var t := Letter();
    assert SeqLen(t[0]) == 1;
    assert AllIn(g, Big, t, 1);
    assert AllIn(g, Big, t, 0);
  }

  // ---- Fields ---------------------------------------------------------

  function Ticked(caption: seq<bv8>): Field {
    Field(Checkbox, 0, false, false, [], caption)
  }

  lemma MarkDraws(g: Page, s: Layout, f: Field)
    requires Shows(g, s) && f == Ticked(Letter()) && s.pen.x < 60
    ensures |OnMark(g, s, f).log| == |s.log| + 1
  {
  }

  lemma BoxTells(g: Page, pen: Pen)
    requires Reachable(g, pen) && Seen(g.view, 0) && BoldLetters(g.cfg)
    ensures Tells(g, pen, Step(g, Frame(pen), FieldOf(Ticked(Letter()), NoStyle())), 2, 1)
  {
    hide EmitRun, OnMark;
    var s := ToMargin(Deepened(Frame(pen), 0));
    var f := Ticked(Letter());
    MarkPen(g, s, f);
    MarkDraws(g, s, f);
    var s2 := OnMark(g, s, f);
    OneSpaceDraws(g, s2);
    var s3 := EmitRun(g, s2, OneSpace(), false);
    assert SameLeft(pen, s3.pen) && !s3.pen.invert && !s2.pen.invert;
    assert SeqLen(0x61) == 1;
    LetterShows(g, s3);
    assert OnField(g, Frame(pen), f, NoStyle()) == EmitRun(g, s3, Letter(), false);
    FieldLeaves(g, Frame(pen), f, NoStyle());
  }

  /** Over every page that opens with a checkbox or a radio button. */
  lemma FieldFirstIff(g: Page, pen: Pen)
    requires Reachable(g, pen) && Seen(g.view, 0) && BoldLetters(g.cfg)
    ensures Frame(pen) == Fresh() <==>
      forall cbs: seq<Callback> | IsPage(cbs) && cbs != [] && cbs[0].FieldOf? && cbs[0].field.kind != TextField :: Alike(g, pen, cbs)
  {
    hide Step, Run, IsPage, Tells, Reachable;
    var cb := FieldOf(Ticked(Letter()), NoStyle());
    FreshIsReachable(g);
    BoxTells(g, pen);
    BoxTells(g, Fresh().pen);
    if Frame(pen) != Fresh() {
      LeftoversShow(g, pen, cb, 2, 1);
      assert !Alike(g, pen, [cb, LineEnd(NoStyle())]);
    }
  }

  /** A state but for what a text field never reads. */
  predicate SameButStyle(g: Page, a: Layout, b: Layout) {
    && a.log == b.log && RowHeight(g, a) == RowHeight(g, b)
    && b.pen.x == a.pen.x && b.pen.y == a.pen.y && b.pen.rowOpen == a.pen.rowOpen && b.pen.depth == a.pen.depth
  }

  lemma SamePut(g: Page, a: Layout, b: Layout, shape: Shape)
    requires SameButStyle(g, a, b)
    ensures SameButStyle(g, Put(g, a, shape), Put(g, b, shape))
  {
  }

  lemma SameMoved(g: Page, a: Layout, b: Layout, w: nat)
    requires SameButStyle(g, a, b)
    ensures SameButStyle(g, Moved(a, w), Moved(b, w)) && a.pen.x == b.pen.x
  {
  }

  lemma {:induction false} SameCols(g: Page, a: Layout, b: Layout, f: Field, col: nat, vk: nat, hasBg: bool, ink: bool)
    requires SameButStyle(g, a, b)
    ensures SameButStyle(g, FieldCols(g, a, f, col, vk, hasBg, ink), FieldCols(g, b, f, col, vk, hasBg, ink))
    decreases FieldWidth(f) - col
  {
    hide Put, SameButStyle, RowHeight;
    SameMoved(g, a, b, FONT_ADVANCE);
    if col < FieldWidth(f) && a.pen.x + FONT_ADVANCE <= RIGHT {
      SamePut(g, a, b, Symbol(a.pen.x, if vk < |f.value| then (if f.masked then [0x2A] else ChunkAt(f.value, vk)) else [0x5F], vk < |f.value| ==> ink));
      var a1, b1 := FieldCell(g, a, f, vk, hasBg, ink), FieldCell(g, b, f, vk, hasBg, ink);
      SameMoved(g, a1, b1, FONT_ADVANCE);
      SameCols(g, Moved(a1, FONT_ADVANCE), Moved(b1, FONT_ADVANCE),
               f, col + 1, if vk < |f.value| then vk + SeqLen(f.value[vk]) else vk, hasBg, ink);
    }
  }

  lemma SameField(g: Page, a: Layout, b: Layout, f: Field, style: Style)
    requires SameButStyle(g, a, b)
    ensures OnTextField(g, a, f, style).log == OnTextField(g, b, f, style).log
  {
    var w, h := BarWidth(a, f), RowHeight(g, a);
    assert w == BarWidth(b, f) && h == RowHeight(g, b) && a.pen.x == b.pen.x;
    hide Put, FieldCols, Luma, HasBg, BarWidth, RowHeight;
    var hasBg := HasBg(style.bg);
    var luma := if hasBg then Luma(style.bg) else 255;
    var dark := hasBg && luma < 128;
    SamePut(g, a, b, Fill(a.pen.x, w, h, true));
    SamePut(g, a, b, Texture(a.pen.x, w, h, luma));
    var a1 := if dark then Put(g, a, Fill(a.pen.x, w, h, true)) else if hasBg then PaintBg(g, a, a.pen.x, w, luma) else a;
    var b1 := if dark then Put(g, b, Fill(b.pen.x, w, h, true)) else if hasBg then PaintBg(g, b, b.pen.x, w, luma) else b;
    SameCols(g, a1, b1, f, 0, 0, hasBg, !dark);
  }

  /** A text field that opens a frame draws itself as on a fresh renderer exactly when no face is left open
      but the third heading's, whose row is no taller than a line. */
  lemma TextFieldFirstIff(g: Page, pen: Pen)
    requires Reachable(g, pen) && Seen(g.view, 0)
    ensures pen.head == 0 || pen.head == 3 <==>
      forall f: Field, style: Style | f.kind == TextField && Chunked(f.caption, 0) ::
        OnField(g, Frame(pen), f, style).log == OnField(g, Fresh(), f, style).log
  {
    hide OnTextField, FieldCols;
    if pen.head == 0 || pen.head == 3 {
      forall f: Field, style: Style | f.kind == TextField && Chunked(f.caption, 0)
        ensures OnField(g, Frame(pen), f, style).log == OnField(g, Fresh(), f, style).log
      {
        SameField(g, ToMargin(Deepened(Frame(pen), style.depth)), ToMargin(Deepened(Fresh(), style.depth)), f, style);
      }
    } else {
      FieldHeight(g, pen);
      FieldHeight(g, Fresh().pen);
      assert OnField(g, Frame(pen), OneCell(), NoStyle()).log != OnField(g, Fresh(), OneCell(), NoStyle()).log;
    }
  }

  lemma FieldHeight(g: Page, pen: Pen)
    requires Seen(g.view, 0)
    ensures var log := OnField(g, Frame(pen), OneCell(), NoStyle()).log; |log| == 1 && log[0].h == RowHeight(g, Frame(pen))
  {
    var s := ToMargin(Deepened(Frame(pen), 0));
    var f := OneCell();
    assert SeqLen(f.value[0]) == 1;
    var c := Moved(FieldCell(g, s, f, 0, false, true), FONT_ADVANCE);
    assert FieldCols(g, c, f, 1, 1, false, true) == c;
    assert FieldCols(g, s, f, 0, 0, false, true) == c;
  }

  // ---- Images ---------------------------------------------------------

  lemma TagProse(g: Page, s: Layout)
    requires !s.pen.literal && s.pen.x == Indent(s) && Shows(g, s)
    ensures Chunked(ImageTag(), 0)
    ensures var b := Tokens(g, s, ImageTag(), 0, false);
      && |b.log| >= |s.log| + 5 * PerCell(s, false) && (Plain(s.pen) ==> |b.log| == |s.log| + 5)
      && b.pen == s.pen.(x := b.pen.x, rowOpen := true) && b.pen.x <= 150
  {
    hide Lead, Word, Token, SkipBlankish, WordEnd, Chunked, ChunkCount, NoBlanks, Pace;
    var t := ImageTag();
    TagShape();
    var m := Word(g, s, t, 0, 5, false);
    WordDraws(g, s, t, 0, 5, false);
    TagWord(g, s);
    var l := Lead(g, m, Pace(s), false);
    LeadDraws(g, m, Pace(s), false);
    assert Tokens(g, l, t, 6, false) == l;
    assert Tokens(g, m, t, 5, false) == l;
    assert Tokens(g, s, t, 0, false) == l;
  }

  lemma TagWord(g: Page, s: Layout)
    requires !s.pen.literal && s.pen.x == Indent(s)
    ensures var t := ImageTag(); var m := Word(g, s, t, 0, 5, false); var l := Lead(g, m, Pace(s), false);
      && Token(g, s, t, 0, 0, 5, false) == m && Token(g, m, t, 5, 6, 6, false) == l
      && m.pen == s.pen.(x := m.pen.x, rowOpen := true) && l.pen == s.pen.(x := l.pen.x, rowOpen := true) && l.pen.x <= 150
  {
    hide Lead, Word, Pace, ChunkCount, Token, Indent, ImageTag, Wrap16, RowHeight;
    var t := ImageTag();
    FiveChunks();
    PaceRoom(s);
    var m := Word(g, s, t, 0, 5, false);
    WordWalks(g, s, t, 0, 5, false);
    SamePace(s, m);
    LeadWalks(g, m, Pace(s), false);
    NoWrap(s.pen.x + 5 * Pace(s));
    NoWrap(s.pen.x + 5 * Pace(s) + Pace(s));
    FiveCells(g, s);
    LastSpace(g, m);
  }

  lemma FiveChunks()
    ensures |ImageTag()| == 6 && ChunkCount(ImageTag(), 0, 5) == 5
  {
    TagShape();
  }

  lemma PaceRoom(s: Layout)
    ensures 6 <= Pace(s) <= 12 && Indent(s) <= 50
  {
  }

  lemma NoWrap(n: nat)
    requires n < 1000
    ensures Wrap16(n) == n
  {
  }

  lemma FiveCells(g: Page, s: Layout)
    requires s.pen.x == Indent(s)
    ensures Token(g, s, ImageTag(), 0, 0, 5, false) == Word(g, s, ImageTag(), 0, 5, false)
  {
    TagShape();
    assert 6 <= Pace(s) <= 12 && Indent(s) <= 50;
    UsableRoom(s);
    hide Lead, Word, Pace, ChunkCount, LongWord, Newline, Indent, Usable;
    assert LeadWidth(s, 0, 0) == 0 && WordWidth(s, ImageTag(), 0, 5) == 5 * Pace(s);
  }

  lemma LastSpace(g: Page, s: Layout)
    requires s.pen.x <= 120
    ensures Token(g, s, ImageTag(), 5, 6, 6, false) == Lead(g, s, Pace(s), false)
  {
    TagShape();
    assert 6 <= Pace(s) <= 12;
    hide Lead, Word, Pace, ChunkCount, LongWord, Newline, Indent, Usable;
    NoWord(g, Lead(g, s, Pace(s), false), ImageTag());
    assert LeadWidth(s, 5, 6) == Pace(s) && WordWidth(s, ImageTag(), 6, 6) == 0;
  }

  lemma UsableRoom(s: Layout)
    ensures Usable(s) >= 300
  {
  }

  lemma NoWord(g: Page, s: Layout, t: seq<bv8>)
    requires |t| == 6
    ensures Word(g, s, t, 6, 6, false) == s
  {
  }

  lemma TagShape()
    ensures var t := ImageTag();
      && Chunked(t, 5) && Chunked(t, 6) && NoBlanks(t, 0, 5) && ChunkCount(t, 0, 5) == 5 && ChunkCount(t, 6, 6) == 0
      && SkipBlankish(t, 0) == 0 && WordEnd(t, 0) == 5 && SkipBlankish(t, 5) == 6 && WordEnd(t, 6) == 6
  {
    var t := ImageTag();
    assert t == [0x5B, 0x69, 0x6D, 0x67, 0x5D, 0x20];
    assert forall j :: 0 <= j < 6 ==> SeqLen(t[j]) == 1;
    assert WordEnd(t, 5) == 5 && WordEnd(t, 4) == 5 && WordEnd(t, 3) == 5 && WordEnd(t, 2) == 5 && WordEnd(t, 1) == 5;
    assert NoBlanks(t, 5, 5) && NoBlanks(t, 4, 5) && NoBlanks(t, 3, 5) && NoBlanks(t, 2, 5) && NoBlanks(t, 1, 5);
    assert ChunkCount(t, 4, 5) == 1 && ChunkCount(t, 3, 5) == 2 && ChunkCount(t, 2, 5) == 3 && ChunkCount(t, 1, 5) == 4;
    assert SkipBlankish(t, 6) == 6;
  }

  lemma {:induction false} LiteralDrawsAll(g: Page, s: Layout, t: seq<bv8>, k: nat)
    requires k <= |t| && s.pen.x + 6 * (|t| - k) <= 200 && Shows(g, s) && forall j :: 0 <= j < |t| ==> SeqLen(t[j]) == 1
    ensures var b := LiteralFrom(g, s, t, k, false);
      && |b.log| == |s.log| + (|t| - k)
      && b.pen == s.pen.(x := s.pen.x + 6 * (|t| - k), rowOpen := s.pen.rowOpen || k < |t|)
    decreases |t| - k
  {
    hide LiteralCellOf;
    if k < |t| {
      LiteralCellDraws(g, s, ChunkAt(t, k));
      LiteralDrawsAll(g, LiteralCellOf(g, s, ChunkAt(t, k), false), t, k + 1);
    }
  }

  /** The tag an image starts with: five cells and a space. */
  lemma TagDraws(g: Page, pen: Pen)
    requires Seen(g.view, 0)
    ensures var s := Deepened(Frame(pen), 0);
      var b := EmitRun(g, s, ImageTag(), false);
      && (!Plain(pen) ==> |b.log| > 5) && (Plain(pen) ==> |b.log| == 5)
      && SameLeft(pen, b.pen) && b.pen.rowOpen && b.pen.x <= 150 && b.pen.y == 0 && b.pen.depth == 0 && !b.pen.invert
  {
    var s := Deepened(Frame(pen), 0);
    if pen.literal {
      var t := ImageTag();
      assert t == [0x5B, 0x69, 0x6D, 0x67, 0x5D, 0x20];
      LiteralDrawsAll(g, ToMargin(s), t, 0);
    } else {
      TagProse(g, PullBack(s));
    }
  }

  lemma ImageTells(g: Page, pen: Pen)
    requires Reachable(g, pen) && Seen(g.view, 0) && BoldLetters(g.cfg)
    ensures Tells(g, pen, Step(g, Frame(pen), Image(Letter(), [], NoStyle())), 6, 5)
  {
    hide EmitRun;
    TagDraws(g, pen);
    var s := EmitRun(g, Deepened(Frame(pen), 0), ImageTag(), false);
    LetterShows(g, s);
    RunKeepsPen(g, s, Letter(), false);
    assert OnImage(g, Frame(pen), Letter(), [], NoStyle()) == EmitRun(g, s, Letter(), false);
  }

  /** Over every page that opens with an image. */
  lemma ImageFirstIff(g: Page, pen: Pen)
    requires Reachable(g, pen) && Seen(g.view, 0) && BoldLetters(g.cfg)
    ensures Frame(pen) == Fresh() <==> forall cbs: seq<Callback> | IsPage(cbs) && cbs != [] && cbs[0].Image? :: Alike(g, pen, cbs)
  {
    hide Step, Run, IsPage, Tells, Reachable;
    var cb := Image(Letter(), [], NoStyle());
    FreshIsReachable(g);
    ImageTells(g, pen);
    ImageTells(g, Fresh().pen);
    if Frame(pen) != Fresh() {
      LeftoversShow(g, pen, cb, 6, 5);
      assert !Alike(g, pen, [cb, LineEnd(NoStyle())]);
    }
  }

  // ---- Text -----------------------------------------------------------

  lemma TextAfter(g: Page, pen: Pen)
    requires Reachable(g, pen) && Seen(g.view, 0)
    ensures var log := Step(g, Frame(pen), Text(Letter(), NoStyle())).log;
      |log| == 1 && log[0].shape.Glyph? && log[0].shape.face == if pen.head == 0 then Body else HeadFace(pen.head)
  {
    var s := Styled(g, Frame(pen), Letter(), NoStyle());
    assert s.pen.head == pen.head && !s.pen.bold && Plain(s.pen) && !s.pen.invert && s.pen.x == Indent(s) && s.pen.y == 0 && s.log == [];
    OneLetter(g, s, false);
    CellFace(g, s);
  }

  lemma CellFace(g: Page, s: Layout)
    requires Shows(g, s) && Plain(s.pen) && !s.pen.bold && s.pen.head <= 3 && s.log == []
    ensures var log := CellOf(g, s, [0x61], false).log;
      |log| == 1 && log[0].shape.Glyph? && log[0].shape.face == if s.pen.head == 0 then Body else HeadFace(s.pen.head)
  {
  }

  /** Over every page that opens with text: the next frame draws what a fresh renderer would exactly when no
      heading's face is left open. */
  lemma TextFirstIff(g: Page, pen: Pen)
    requires Reachable(g, pen) && Seen(g.view, 0)
    ensures pen.head == 0 <==> forall cbs: seq<Callback> | IsPage(cbs) && cbs != [] && cbs[0].Text? :: Alike(g, pen, cbs)
  {
    hide Step, Run, IsPage;
    if pen.head == 0 {
      forall cbs: seq<Callback> | IsPage(cbs) && cbs != [] && cbs[0].Text?
        ensures Alike(g, pen, cbs)
      {
        TextForgets(g, pen, cbs);
      }
    } else {
      var cb := Text(Letter(), NoStyle());
      FreshIsReachable(g);
      TextAfter(g, pen);
      TextAfter(g, Fresh().pen);
      OnePage(g, pen, cb);
      assert !Alike(g, pen, [cb]);
    }
  }

  lemma OnePage(g: Page, pen: Pen, cb: Callback)
    requires WellFormed(cb)
    ensures IsPage([cb]) && Run(g, Frame(pen), [cb]) == Step(g, Frame(pen), cb) && Run(g, Fresh(), [cb]) == Step(g, Fresh(), cb)
  {
    hide Step, WellFormed;
    RunOne(g, Frame(pen), cb);
    RunOne(g, Fresh(), cb);
  }

  lemma TextForgets(g: Page, pen: Pen, cbs: seq<Callback>)
    requires pen.head == 0 && pen.rowH == 0 && IsPage(cbs) && cbs != [] && cbs[0].Text?
    ensures Run(g, Frame(pen), cbs) == Run(g, Fresh(), cbs)
  {
    hide EmitRun, Styled;
    StyledForgets(g, pen, cbs[0].t, cbs[0].style);
  }
}
