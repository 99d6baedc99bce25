// Breaking a table cell into lines: the counting walk and the drawing walk.
module CellWalk {
  import opened Utf8
  import opened Chunks
  import opened Arith

  const MAX_LINES := 32

  /** The end of at most w sequences from e. */
  function TakeEnd(p: seq<bv8>, e: nat, w: nat): nat
    decreases w
  {
    if e < |p| && w > 0 then TakeEnd(p, e + SeqLen(p[e]), w - 1) else e
  }

  function BackToSpace(p: seq<bv8>, from: nat, brk: nat): nat
    requires brk <= |p|
    decreases brk
  {
    if brk > from && p[brk - 1] != SPACE then BackToSpace(p, from, brk - 1) else brk
  }

  /** Where the line starting at `at` ends: a full line, backed up to a space when that keeps at least
      two thirds of it. */
  function BreakAt(p: seq<bv8>, at: nat, w: nat): nat {
    var e := TakeEnd(p, at, w);
    if e < |p| && p[e] != SPACE then
      var brk := BackToSpace(p, at, e);
      if brk > at && (brk - at) * 3 >= (e - at) * 2 then brk else e
    else e
  }

  function SkipSpaces(p: seq<bv8>, at: nat): nat
    decreases |p| - at
  {
    if at < |p| && p[at] == SPACE then SkipSpaces(p, at + 1) else at
  }

  function NextLine(p: seq<bv8>, at: nat, w: nat): nat {
    SkipSpaces(p, BreakAt(p, at, w))
  }

  /** Lines a cell needs, were there no cap. */
  function Lines(p: seq<bv8>, at: nat, w: nat): nat
    requires w > 0
    decreases |p| - at
  {
    if at < |p| then
      NextLineAdvances(p, at, w);
      1 + Lines(p, NextLine(p, at, w), w)
    else 0
  }

  function CappedLines(p: seq<bv8>, w: nat): nat
    requires w > 0
  {
    if Lines(p, 0, w) <= MAX_LINES then Lines(p, 0, w) else MAX_LINES
  }

  /** Where line `ln` of a cell starts, found by walking from the top. */
  function LineStart(p: seq<bv8>, w: nat, ln: nat): nat {
    if ln == 0 then 0 else NextLine(p, LineStart(p, w, ln - 1), w)
  }

  // ---- Progress -------------------------------------------------------

  lemma {:induction false} TakeEndAdvances(p: seq<bv8>, e: nat, w: nat)
    ensures e <= TakeEnd(p, e, w)
    ensures e < |p| && w > 0 ==> e < TakeEnd(p, e, w)
    decreases w
  {
    if e < |p| && w > 0 {
      TakeEndAdvances(p, e + SeqLen(p[e]), w - 1);
    }
  }

  lemma {:induction false} BackStays(p: seq<bv8>, from: nat, brk: nat)
    requires from <= brk <= |p|
    ensures from <= BackToSpace(p, from, brk) <= brk
    ensures BackToSpace(p, from, brk) > from ==> p[BackToSpace(p, from, brk) - 1] == SPACE
    decreases brk
  {
    if brk > from && p[brk - 1] != SPACE {
      BackStays(p, from, brk - 1);
    }
  }

  lemma {:induction false} SkipForward(p: seq<bv8>, at: nat)
    ensures at <= SkipSpaces(p, at)
    ensures at <= |p| ==> SkipSpaces(p, at) <= |p|
    ensures forall j :: at <= j < SkipSpaces(p, at) ==> j < |p| && p[j] == SPACE
    decreases |p| - at
  {
    if at < |p| && p[at] == SPACE {
      SkipForward(p, at + 1);
    }
  }

  /** On any bytes at all each line consumes something, so both walks end. */
  lemma NextLineAdvances(p: seq<bv8>, at: nat, w: nat)
    requires w > 0
    ensures at < |p| ==> at < BreakAt(p, at, w)
    ensures at <= BreakAt(p, at, w) <= NextLine(p, at, w)
  {
    TakeEndAdvances(p, at, w);
    var e := TakeEnd(p, at, w);
    if e < |p| {
      BackStays(p, at, e);
    }
    SkipForward(p, BreakAt(p, at, w));
  }

  // ---- Well-formed cells ----------------------------------------------

  lemma {:induction false} TakeEndChunked(p: seq<bv8>, e: nat, w: nat)
    requires Chunked(p, e)
    ensures e <= TakeEnd(p, e, w) <= |p| && Chunked(p, TakeEnd(p, e, w)) && Reaches(p, e, TakeEnd(p, e, w))
    ensures ChunkCount(p, e, TakeEnd(p, e, w)) <= w
    ensures TakeEnd(p, e, w) < |p| ==> TakeEnd(p, e, w) - e >= w
    decreases w
  {
    if e < |p| && w > 0 {
      TakeEndChunked(p, e + SeqLen(p[e]), w - 1);
      TakeEndAdvances(p, e + SeqLen(p[e]), w - 1);
    }
  }

  lemma {:induction false} FewerChunks(p: seq<bv8>, k: nat, a: nat, b: nat)
    requires a <= b <= |p|
    ensures ChunkCount(p, k, a) <= ChunkCount(p, k, b)
    decreases b - k
  {
    if k < a {
      FewerChunks(p, k + SeqLen(p[k]), a, b);
    }
  }

  lemma {:induction false} SkipChunked(p: seq<bv8>, at: nat)
    requires Chunked(p, at)
    ensures Chunked(p, SkipSpaces(p, at))
    decreases |p| - at
  {
    if at < |p| && p[at] == SPACE {
      assert SeqLen(SPACE) == 1;
      SkipChunked(p, at + 1);
    }
  }

  /** One line of a well-formed cell: it stays inside the cell, holds at most w codepoints, ends between
      sequences, and if anything is left after it, it kept two thirds of a full line. */
  lemma LineShape(p: seq<bv8>, at: nat, w: nat)
    requires Chunked(p, at)
    ensures at <= BreakAt(p, at, w) <= NextLine(p, at, w) <= |p|
    ensures Chunked(p, BreakAt(p, at, w)) && Reaches(p, at, BreakAt(p, at, w)) && Chunked(p, NextLine(p, at, w))
    ensures ChunkCount(p, at, BreakAt(p, at, w)) <= w
    ensures forall j :: BreakAt(p, at, w) <= j < NextLine(p, at, w) ==> p[j] == SPACE
    ensures BreakAt(p, at, w) < |p| ==> 3 * (BreakAt(p, at, w) - at) >= 2 * w
  {
    var e := TakeEnd(p, at, w);
    TakeEndChunked(p, at, w);
    TakeEndAdvances(p, at, w);
    BackStays(p, at, e);
    var b := BreakAt(p, at, w);
    if b < e {
      AtAscii(p, at, b - 1);
      FewerChunks(p, at, b, e);
    }
    SkipForward(p, b);
    SkipChunked(p, b);
  }

  /** b is just past the last space of the line from `at` to e. */
  predicate LastSpace(p: seq<bv8>, at: nat, e: nat, b: nat)
    requires e <= |p|
  {
    at < b <= e && p[b - 1] == 0x20 && forall j :: b <= j < e ==> p[j] != 0x20
  }

  lemma {:induction false} BackIsLast(p: seq<bv8>, at: nat, e: nat)
    requires at <= e <= |p|
    ensures var b := BackToSpace(p, at, e); if b > at then LastSpace(p, at, e, b) else forall j :: at <= j < e ==> p[j] != 0x20
    decreases e
  {
    if e > at && p[e - 1] != SPACE {
      BackIsLast(p, at, e - 1);
    }
  }

  lemma {:induction false} TakesAll(p: seq<bv8>, e: nat, w: nat)
    requires Chunked(p, e)
    ensures TakeEnd(p, e, w) < |p| ==> ChunkCount(p, e, TakeEnd(p, e, w)) == w
    decreases w
  {
    TakeEndChunked(p, e, w);
    if e < |p| && w > 0 {
      TakesAll(p, e + SeqLen(p[e]), w - 1);
      TakeEndAdvances(p, e + SeqLen(p[e]), w - 1);
      TakeEndChunked(p, e + SeqLen(p[e]), w - 1);
    }
  }

  /** Where a line breaks: the rest of the cell if it fits; else after w characters, when a space follows; else past the
      last space among them, when there is one and at least two thirds of the line come before it; else after w. */
  lemma BreaksAt(p: seq<bv8>, at: nat, w: nat)
    requires Chunked(p, at)
    ensures ChunkCount(p, at, |p|) <= w ==> BreakAt(p, at, w) == |p|
    ensures ChunkCount(p, at, |p|) > w ==>
      var e := TakeEnd(p, at, w); var b := BreakAt(p, at, w);
      && e < |p| && ChunkCount(p, at, e) == w
      && (p[e] == 0x20 ==> b == e)
      && (p[e] != 0x20 ==> b == e || LastSpace(p, at, e, b))
      && (p[e] != 0x20 ==> forall c: nat :: LastSpace(p, at, e, c) ==> b == if 3 * (c - at) >= 2 * (e - at) then c else e)
  {
    var e := TakeEnd(p, at, w);
    TakeEndChunked(p, at, w);
    TakeEndAdvances(p, at, w);
    TakesAll(p, at, w);
    BackIsLast(p, at, e);
    if e < |p| {
      MoreChunks(p, at, e);
    }
  }

  lemma {:induction false} MoreChunks(p: seq<bv8>, k: nat, e: nat)
    requires Chunked(p, k) && e < |p| && Reaches(p, k, e)
    ensures ChunkCount(p, k, |p|) > ChunkCount(p, k, e)
    decreases |p| - k
  {
    if k < e {
      MoreChunks(p, k + SeqLen(p[k]), e);
    }
  }

  // ---- Both walks agree -----------------------------------------------

  lemma {:induction false} LineStartChunked(p: seq<bv8>, w: nat, ln: nat)
    requires Chunked(p, 0)
    ensures LineStart(p, w, ln) <= |p| && Chunked(p, LineStart(p, w, ln))
    decreases ln
  {
    if ln > 0 {
      LineStartChunked(p, w, ln - 1);
      LineShape(p, LineStart(p, w, ln - 1), w);
    }
  }

  lemma {:induction false} LinesFromStart(p: seq<bv8>, w: nat, ln: nat)
    requires w > 0
    ensures Lines(p, LineStart(p, w, ln), w) == if ln <= Lines(p, 0, w) then Lines(p, 0, w) - ln else 0
    decreases ln
  {
    if ln > 0 {
      LinesFromStart(p, w, ln - 1);
      var at := LineStart(p, w, ln - 1);
      if at >= |p| {
        NextLineAdvances(p, at, w);
      }
    }
  }

  /** The drawing walk starts line ln inside the cell exactly when the counting walk counted it. */
  lemma WalksAgree(p: seq<bv8>, w: nat, ln: nat)
    requires w > 0
    ensures LineStart(p, w, ln) < |p| <==> ln < Lines(p, 0, w)
  {
    LinesFromStart(p, w, ln);
    NextLineAdvances(p, LineStart(p, w, ln), w);
  }

  /** The slices a well-formed cell is drawn in: nonempty, at most w codepoints, each starting where the
      one before ended but for spaces at the break, the last ending the cell. */
  lemma SlicesPartition(p: seq<bv8>, w: nat, ln: nat)
    requires w > 0 && Chunked(p, 0) && ln < Lines(p, 0, w)
    ensures var from, to, next := LineStart(p, w, ln), BreakAt(p, LineStart(p, w, ln), w), LineStart(p, w, ln + 1);
      && from < to <= next <= |p|
      && Chunked(p, from) && Reaches(p, from, to) && Chunked(p, to) && ChunkCount(p, from, to) <= w
      && (forall j :: to <= j < next ==> p[j] == SPACE)
      && (ln + 1 == Lines(p, 0, w) ==> next == |p|)
  {
    hide BreakAt, Chunked, Reaches, ChunkCount, SkipSpaces;
    WalksAgree(p, w, ln);
    WalksAgree(p, w, ln + 1);
    LineStartChunked(p, w, ln);
    LineStartChunked(p, w, ln + 1);
    LineShape(p, LineStart(p, w, ln), w);
    NextLineAdvances(p, LineStart(p, w, ln), w);
  }

  function Kept(s: seq<bv8>): seq<bv8> {
    if s == [] then [] else (if s[0] == SPACE then [] else [s[0]]) + Kept(s[1..])
  }

  /** The non-space bytes of lines ln, ln+1, ... as drawn. */
  function DrawnFrom(p: seq<bv8>, w: nat, ln: nat, lines: nat): seq<bv8>
    decreases lines - ln
  {
    if ln < lines then
      var from := LineStart(p, w, ln);
      var to := BreakAt(p, from, w);
      (if from < to <= |p| then Kept(p[from..to]) else []) + DrawnFrom(p, w, ln + 1, lines)
    else []
  }

  lemma {:induction false} KeptConcat(a: seq<bv8>, b: seq<bv8>)
    ensures Kept(a + b) == Kept(a) + Kept(b)
    decreases |a|
  {
    if a == [] {
      assert a + b == b;
    } else {
      assert (a + b)[1..] == a[1..] + b;
      KeptConcat(a[1..], b);
    }
  }

  lemma {:induction false} KeptSpaces(s: seq<bv8>)
    requires forall j :: 0 <= j < |s| ==> s[j] == SPACE
    ensures Kept(s) == []
    decreases |s|
  {
    if s != [] {
      KeptSpaces(s[1..]);
    }
  }

  lemma KeptAcross(p: seq<bv8>, from: nat, to: nat, next: nat)
    requires from <= to <= next <= |p| && forall j :: to <= j < next ==> p[j] == SPACE
    ensures Kept(p[from..]) == Kept(p[from..to]) + Kept(p[next..])
  {
    assert p[from..] == p[from..to] + (p[to..next] + p[next..]);
    KeptConcat(p[from..to], p[to..next] + p[next..]);
    KeptConcat(p[to..next], p[next..]);
    KeptSpaces(p[to..next]);
  }

  lemma {:induction false} DrawnCovers(p: seq<bv8>, w: nat, ln: nat)
    requires w > 0 && Chunked(p, 0) && ln <= Lines(p, 0, w)
    ensures LineStart(p, w, ln) <= |p|
    ensures DrawnFrom(p, w, ln, Lines(p, 0, w)) == Kept(p[LineStart(p, w, ln)..])
    decreases Lines(p, 0, w) - ln
  {
    hide LineStart, Lines, BreakAt, Kept, Chunked;
    LineStartChunked(p, w, ln);
    var from := LineStart(p, w, ln);
    if ln < Lines(p, 0, w) {
      SlicesPartition(p, w, ln);
      DrawnCovers(p, w, ln + 1);
      KeptAcross(p, from, BreakAt(p, from, w), LineStart(p, w, ln + 1));
    } else {
      WalksAgree(p, w, ln);
      KeptSpaces(p[from..]);
    }
  }

  // ---- How many lines -------------------------------------------------

  lemma {:induction false} LinesBoundFrom(p: seq<bv8>, at: nat, w: nat)
    requires w > 0 && Chunked(p, at) && at < |p|
    ensures (Lines(p, at, w) - 1) * (2 * w) < 3 * (|p| - at)
    decreases |p| - at
  {
    LineShape(p, at, w);
    NextLineAdvances(p, at, w);
    var next := NextLine(p, at, w);
    if next < |p| {
      LinesBoundFrom(p, next, w);
      Distributes(Lines(p, next, w) - 1, 1, 2 * w);
    } else {
      assert Lines(p, at, w) == 1;
    }
  }

  /** A nonempty well-formed cell of n bytes in a column of w cells: (lines - 1) * 2w < 3n. */
  lemma LinesBound(p: seq<bv8>, w: nat)
    requires w > 0 && p != [] && Chunked(p, 0)
    ensures (Lines(p, 0, w) - 1) * (2 * w) < 3 * |p|
  {
    LinesBoundFrom(p, 0, w);
  }

  /** The cap loses text exactly when the cell needs more lines than the cap, which a wide enough column
      rules out. */
  lemma CapLosesNothingIff(p: seq<bv8>, w: nat)
    requires w > 0 && Chunked(p, 0)
    ensures LineStart(p, w, CappedLines(p, w)) == |p| <==> Lines(p, 0, w) <= 32
    ensures 3 * |p| <= 64 * w ==> Lines(p, 0, w) <= 32
    ensures Lines(p, 0, w) <= 32 ==> DrawnFrom(p, w, 0, CappedLines(p, w)) == Kept(p)
  {
    hide BreakAt, Kept, SkipSpaces, TakeEnd;
    var n := Lines(p, 0, w);
    WalksAgree(p, w, CappedLines(p, w));
    LineStartChunked(p, w, CappedLines(p, w));
    if p != [] {
      LinesBound(p, w);
      if n > MAX_LINES {
        Grows(MAX_LINES, n - 1, 2 * w);
      }
    }
    DrawnCovers(p, w, 0);
    assert p[0..] == p;
  }

  // ---- The loops ------------------------------------------------------

  method BreakLine(p: seq<bv8>, at: nat, w: nat) returns (e: nat)
    ensures e == BreakAt(p, at, w)
  {
    e := at;
    var t := 0;
    while e < |p| && t < w
      invariant 0 <= t <= w && TakeEnd(p, e, w - t) == TakeEnd(p, at, w)
      decreases w - t
    {
      e := e + SeqLen(p[e]);
      t := t + 1;
    }
    if e < |p| && p[e] != SPACE {
      var brk: nat := e;
      while brk > at && p[brk - 1] != SPACE
        invariant brk <= e && BackToSpace(p, at, brk) == BackToSpace(p, at, e)
      {
        brk := brk - 1;
      }
      TakeEndAdvances(p, at, w);
      if brk > at && (brk - at) * 3 >= (e - at) * 2 {
        e := brk;
      }
    }
  }

  method SkipBlanks(p: seq<bv8>, from: nat) returns (at: nat)
    ensures at == SkipSpaces(p, from)
  {
    at := from;
    while at < |p| && p[at] == SPACE
      invariant SkipSpaces(p, at) == SkipSpaces(p, from)
    {
      at := at + 1;
    }
  }

  /** The counting walk. */
  method CountLines(p: seq<bv8>, w: nat) returns (need: nat)
    requires w > 0
    ensures need == CappedLines(p, w)
  {
    need := 0;
    var at: nat := 0;
    while at < |p| && need < MAX_LINES
      invariant need <= MAX_LINES && need + Lines(p, at, w) == Lines(p, 0, w)
      decreases MAX_LINES - need
    {
      var e := BreakLine(p, at, w);
      at := SkipBlanks(p, e);
      need := need + 1;
    }
  }

  /** The drawing walk: the slice of the cell on line ln, empty once the cell has run out. */
  method SliceOf(p: seq<bv8>, w: nat, ln: nat) returns (from: nat, to: nat)
    ensures from == LineStart(p, w, ln) || (from >= |p| && LineStart(p, w, ln) >= |p|)
    ensures to == BreakAt(p, from, w)
  {
    from := 0;
    var pass := 0;
    while pass < ln
      invariant pass <= ln && from == LineStart(p, w, pass)
    {
      var e := BreakLine(p, from, w);
      from := SkipBlanks(p, e);
      pass := pass + 1;
      if from >= |p| {
        PastTheEnd(p, w, pass, ln);
        break;
      }
    }
    to := BreakLine(p, from, w);
  }

  lemma {:induction false} PastTheEnd(p: seq<bv8>, w: nat, ln: nat, later: nat)
    requires LineStart(p, w, ln) >= |p| && ln <= later
    ensures LineStart(p, w, later) >= |p|
    decreases later - ln
  {
    if ln < later {
      SkipForward(p, BreakAt(p, LineStart(p, w, ln), w));
      PastTheEnd(p, w, ln + 1, later);
    }
  }
}
