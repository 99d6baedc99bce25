// One frame: each line parsed, its tables collected, and every callback laid out.
module PageComposer {
  import opened Utf8
  import opened Chunks
  import opened Geometry
  import opened LayoutTypes
  import opened LayoutSpec
  import opened LayoutTables
  import opened LayoutScroll
  import opened Frames
  import opened PageRendering
  import opened SourceLines
  import opened CellText
  import opened TableCollect
  import opened TableBuffering

  const NEWLINE: bv8 := 0x0A

  /** What the parser reports: a callback, or a step of a table, whose rows arrive as they stand in the
      source. */
  datatype Report = Says(cb: Callback) | TableBegin | TableRow(line: seq<bv8>) | TableEnd(style: Style)

  /** The Micron parser, of which nothing is known but that it has a state and reports. */
  datatype Parser<!S> = Parser(start: S, step: (S, seq<bv8>) -> (S, seq<Report>))

  /** A blank line for an empty line, the parser's reports for any other. */
  function Fed<S>(p: Parser<S>, st: S, lines: seq<seq<bv8>>): seq<Report>
    decreases |lines|
  {
    if lines == [] then []
    else if lines[0] == [] then [Says(Blank)] + Fed(p, st, lines[1..])
    else
      var (next, reports) := p.step(st, lines[0]);
      reports + Fed(p, next, lines[1..])
  }

  /** The rows collected so far, after these reports. */
  function Pending(rows: seq<seq<bv8>>, reports: seq<Report>): seq<seq<bv8>>
    decreases |reports|
  {
    if reports == [] then rows
    else match reports[0]
      case TableBegin => Pending([], reports[1..])
      case TableRow(line) => Pending(rows + [line], reports[1..])
      case _ => Pending(rows, reports[1..])
  }

  /** What the layout is told: a table when it closes. */
  function Heard(rows: seq<seq<bv8>>, reports: seq<Report>): seq<Callback>
    decreases |reports|
  {
    if reports == [] then []
    else match reports[0]
      case Says(cb) => [cb] + Heard(rows, reports[1..])
      case TableBegin => Heard([], reports[1..])
      case TableRow(line) => Heard(rows + [line], reports[1..])
      case TableEnd(style) =>
        CollectSound(rows);
        [TableOf(Collect(rows), style)] + Heard(rows, reports[1..])
  }

  function PageReports<S>(p: Parser<S>, src: seq<bv8>): seq<Report> {
    Fed(p, p.start, PiecesFrom(src, 0, NEWLINE))
  }

  function PageCallbacks<S>(p: Parser<S>, src: seq<bv8>): seq<Callback> {
    Heard([], PageReports(p, src))
  }

  predicate AllWellFormed(cbs: seq<Callback>) {
    forall i :: 0 <= i < |cbs| ==> WellFormed(cbs[i])
  }

  lemma {:induction false} HeardConcat(rows: seq<seq<bv8>>, a: seq<Report>, b: seq<Report>)
    ensures Heard(rows, a + b) == Heard(rows, a) + Heard(Pending(rows, a), b)
    ensures Pending(rows, a + b) == Pending(Pending(rows, a), b)
    decreases |a|
  {
    hide TableOf, Collect;
    if a == [] {
      assert a + b == b;
    } else {
      assert (a + b)[0] == a[0] && (a + b)[1..] == a[1..] + b;
      match a[0]
      case TableBegin => HeardConcat([], a[1..], b);
      case TableRow(line) => HeardConcat(rows + [line], a[1..], b);
      case _ => HeardConcat(rows, a[1..], b);
    }
  }

  lemma {:induction false} RunConcat(g: Page, s: Layout, a: seq<Callback>, b: seq<Callback>)
    requires AllWellFormed(a) && AllWellFormed(b)
    ensures Run(g, s, a + b) == Run(g, Run(g, s, a), b)
    decreases |a|
  {
    hide Step;
    if a == [] {
      assert a + b == b;
    } else {
      assert (a + b)[0] == a[0] && (a + b)[1..] == a[1..] + b;
      RunConcat(g, Step(g, s, a[0]), a[1..], b);
    }
  }

  // One report more.
  lemma HeardNext(rows: seq<seq<bv8>>, reports: seq<Report>, i: nat)
    requires i < |reports|
    ensures var now, next := Pending(rows, reports[..i]), Pending(rows, reports[..i + 1]);
      && reports[..i + 1] == reports[..i] + [reports[i]]
      && Heard(rows, reports[..i + 1]) == Heard(rows, reports[..i]) + Heard(now, [reports[i]])
      && next == Pending(now, [reports[i]])
      && Heard(rows, reports) == Heard(rows, reports[..i + 1]) + Heard(next, reports[i + 1..])
  {
    hide Heard, Pending;
    HeardConcat(rows, reports[..i], [reports[i]]);
    assert reports[..i] + [reports[i]] == reports[..i + 1];
    HeardConcat(rows, reports[..i + 1], reports[i + 1..]);
    assert reports[..i + 1] + reports[i + 1..] == reports;
  }

  lemma OneReport(rows: seq<seq<bv8>>, report: Report)
    ensures report.Says? ==> Heard(rows, [report]) == [report.cb] && Pending(rows, [report]) == rows
    ensures report.TableBegin? ==> Heard(rows, [report]) == [] && Pending(rows, [report]) == []
    ensures report.TableRow? ==> Heard(rows, [report]) == [] && Pending(rows, [report]) == rows + [report.line]
    ensures SixWide(Collect(rows))
    ensures report.TableEnd? ==> Heard(rows, [report]) == [TableOf(Collect(rows), report.style)] && Pending(rows, [report]) == rows
  {
    CollectSound(rows);
    hide Collect, TableOf;
    assert [report][1..] == [];
  }

  method HandleAll(r: PageRenderer, tb: TableBuffer, reports: seq<Report>, ghost rows: seq<seq<bv8>>)
    requires r.Valid() && tb.Valid() && tb.Contents() == Collect(rows) && AllWellFormed(Heard(rows, reports)) && r.colW != tb.colW
    modifies r, r.colW, tb, tb.tbuf, tb.cellOff, tb.cellLen, tb.colW
    ensures r.Valid() && r.scroll == old(r.scroll) && tb.Valid() && tb.Contents() == Collect(Pending(rows, reports))
    ensures r.State() == Run(r.Here(), old(r.State()), Heard(rows, reports))
  {
    hide Step, LinkTable, WellFormed, Run, Heard, Pending, Collect, AddRow, TableOf;
    ghost var g, start := r.Here(), r.State();
    NothingHeard(g, start, rows);
    var i := 0;
    assert reports[..0] == [];
    while i < |reports|
      invariant 0 <= i <= |reports| && r.Valid() && r.scroll == old(r.scroll) && tb.Valid()
      invariant tb.Contents() == Collect(Pending(rows, reports[..i]))
      invariant AllWellFormed(Heard(rows, reports[..i])) && r.State() == Run(g, start, Heard(rows, reports[..i]))
    {
      HeardNext(rows, reports, i);
      OneReport(Pending(rows, reports[..i]), reports[i]);
      ghost var before, more := Heard(rows, reports[..i]), Heard(Pending(rows, reports[..i]), [reports[i]]);
      PrefixWellFormed(before, more, Heard(Pending(rows, reports[..i + 1]), reports[i + 1..]));
      RunConcat(g, start, before, more);
      match reports[i] {
        case Says(cb) =>
          RunOneMore(g, r.State(), cb);
          r.Handle(cb);
        case TableBegin =>
          NothingMore(g, r.State());
          tb.Open();
          NothingCollected();
        case TableRow(line) =>
          NothingMore(g, r.State());
          tb.AddLine(line);
          OneMoreRow(Pending(rows, reports[..i]), line);
        case TableEnd(style) =>
          var table := tb.Close(style);
          RunOneMore(g, r.State(), table);
          r.Handle(table);
      }
      i := i + 1;
    }
    assert reports[..|reports|] == reports;
  }

  lemma NothingHeard(g: Page, s: Layout, rows: seq<seq<bv8>>)
    ensures Heard(rows, []) == [] && Pending(rows, []) == rows && AllWellFormed([]) && Run(g, s, []) == s
  {
  }

  lemma NothingMore(g: Page, s: Layout)
    ensures Run(g, s, []) == s
  {
  }

  lemma NothingCollected()
    ensures Collect([]) == EmptyTable()
  {
  }

  lemma OneMoreRow(rows: seq<seq<bv8>>, line: seq<bv8>)
    ensures Collect(rows + [line]) == AddRow(Collect(rows), line)
  {
    assert (rows + [line])[..|rows|] == rows;
  }

  lemma RunOneMore(g: Page, s: Layout, cb: Callback)
    requires AllWellFormed([cb])
    ensures WellFormed(cb) && Run(g, s, [cb]) == Step(g, s, cb)
  {
    hide Step;
    assert [cb][0] == cb && Run(g, Step(g, s, cb), []) == Step(g, s, cb);
  }

  lemma PrefixWellFormed(a: seq<Callback>, b: seq<Callback>, rest: seq<Callback>)
    requires AllWellFormed(a + b + rest)
    ensures AllWellFormed(a) && AllWellFormed(b) && AllWellFormed(a + b)
  {
    hide WellFormed;
    var all := a + b + rest;
    assert forall i :: 0 <= i < |a + b| ==> (a + b)[i] == all[i];
    assert forall i :: 0 <= i < |a| ==> a[i] == (a + b)[i];
    assert forall i :: 0 <= i < |b| ==> b[i] == (a + b)[|a| + i];
  }

  /** Lays the page out: the loop feeds exactly the newline split of the source, tables are collected and cut
      as their rows arrive, and the content height is where the pen ends. No table is open when a page
      starts. */
  method ComposePage<S>(r: PageRenderer, tb: TableBuffer, p: Parser<S>, src: seq<bv8>, scroll: U16) returns (height: U16)
    requires r.Valid() && tb.Valid() && r.colW != tb.colW && AllWellFormed(PageCallbacks(p, src))
    modifies r, r.colW, tb, tb.tbuf, tb.cellOff, tb.cellLen, tb.colW
    ensures r.Valid() && r.scroll == scroll && tb.Valid()
    ensures r.State() == Run(In(r.cfg, scroll), Layout(Begun(old(r.pen)), []), PageCallbacks(p, src))
    ensures height == Wrap16(r.pen.y)
  {
    hide Run, LinkTable, WellFormed, Fed, PiecesFrom, PageReports, Heard, Pending, Collect;
    FedAll(p, src);
    r.Begin(scroll);
    tb.Open();
    var g := r.Here();
    ghost var start := r.State();
    ghost var fed: seq<Report> := [];
    var st := p.start;
    var i: nat := 0;
    var more := true;
    NothingHeard(g, start, []);
    NothingCollected();
    while more
      invariant r.Valid() && r.scroll == scroll && i <= |src| && tb.Valid()
      invariant AllWellFormed(Heard([], fed)) && tb.Contents() == Collect(Pending([], fed))
      invariant fed + (if more then Fed(p, st, PiecesFrom(src, i, NEWLINE)) else []) == PageReports(p, src)
      invariant r.State() == Run(g, start, Heard([], fed))
      decreases |src| - i, more
    {
      var e := i;
      while e < |src| && src[e] != NEWLINE
        invariant i <= e <= |src| && FindByte(src, e, NEWLINE) == FindByte(src, i, NEWLINE)
      {
        e := e + 1;
      }
      ghost var rest := if e < |src| then PiecesFrom(src, e + 1, NEWLINE) else [];
      FirstPiece(src, i, NEWLINE);
      FedHead(p, st, src[i..e], rest);
      var reports := [Says(Blank)];
      if e != i {
        var next := p.step(st, src[i..e]);
        st, reports := next.0, next.1;
      }
      ghost var tail := Fed(p, st, rest);
      HeardParts(fed, reports, tail, PageReports(p, src));
      HandleAll(r, tb, reports, Pending([], fed));
      RunConcat(g, start, Heard([], fed), Heard(Pending([], fed), reports));
      fed := fed + reports;
      if e >= |src| {
        FedNone(p, st);
        more := false;
      } else {
        i := e + 1;
      }
    }
    assert fed == PageReports(p, src);
    height := Wrap16(r.pen.y);
  }

  lemma FedAll<S>(p: Parser<S>, src: seq<bv8>)
    ensures PageReports(p, src) == [] + Fed(p, p.start, PiecesFrom(src, 0, NEWLINE))
  {
  }

  lemma FedNone<S>(p: Parser<S>, st: S)
    ensures Fed(p, st, []) == []
  {
  }

  lemma FedHead<S>(p: Parser<S>, st: S, line: seq<bv8>, rest: seq<seq<bv8>>)
    ensures line == [] ==> Fed(p, st, [line] + rest) == [Says(Blank)] + Fed(p, st, rest)
    ensures line != [] ==> Fed(p, st, [line] + rest) == p.step(st, line).1 + Fed(p, p.step(st, line).0, rest)
  {
    assert ([line] + rest)[1..] == rest;
  }

  lemma HeardParts(a: seq<Report>, b: seq<Report>, c: seq<Report>, all: seq<Report>)
    requires all == a + (b + c) && AllWellFormed(Heard([], all))
    ensures AllWellFormed(Heard(Pending([], a), b)) && AllWellFormed(Heard([], a + b)) && a + b + c == all
    ensures Heard([], a + b) == Heard([], a) + Heard(Pending([], a), b) && Pending([], a + b) == Pending(Pending([], a), b)
  {
    hide Heard, Pending, WellFormed;
    HeardConcat([], a, b);
    HeardConcat([], a + b, c);
    assert a + b + c == all;
    PrefixWellFormed(Heard([], a), Heard(Pending([], a), b), Heard(Pending([], a + b), c));
  }

  // ---- From well-formed source to well-formed callbacks ---------------

  /** From a line of whole characters: well-formed runs, and table rows of whole characters. */
  predicate Proper(report: Report) {
    match report
    case Says(cb) => WellFormed(cb) && !cb.Table?
    case TableRow(line) => Complete(line)
    case _ => true
  }

  predicate AllProper(reports: seq<Report>) {
    forall i :: 0 <= i < |reports| ==> Proper(reports[i])
  }

  ghost predicate Faithful<S(!new)>(p: Parser<S>) {
    forall st: S, line: seq<bv8> :: Complete(line) ==> AllProper(p.step(st, line).1)
  }

  /** No cell of any table is cut inside a character. */
  predicate Uncut(rows: seq<seq<bv8>>, reports: seq<Report>)
    decreases |reports|
  {
    reports != [] ==>
      match reports[0]
      case TableBegin => Uncut([], reports[1..])
      case TableRow(line) => Uncut(rows + [line], reports[1..])
      case TableEnd(_) => CleanLines(rows) && Uncut(rows, reports[1..])
      case Says(_) => Uncut(rows, reports[1..])
  }

  lemma {:induction false} HeardIff(rows: seq<seq<bv8>>, reports: seq<Report>)
    requires AllProper(reports) && forall k :: 0 <= k < |rows| ==> Complete(rows[k])
    ensures AllWellFormed(Heard(rows, reports)) <==> Uncut(rows, reports)
    decreases |reports|
  {
    hide Complete, WellFormed, Collect, TableOf, CleanLines;
    if reports != [] {
      assert Proper(reports[0]) && AllProper(reports[1..]);
      match reports[0]
      case Says(cb) =>
        HeardIff(rows, reports[1..]);
        ConsWellFormed(cb, Heard(rows, reports[1..]));
      case TableBegin => HeardIff([], reports[1..]);
      case TableRow(line) => HeardIff(rows + [line], reports[1..]);
      case TableEnd(style) =>
        HeardIff(rows, reports[1..]);
        TableIsWellFormedIff(rows, style);
        ConsWellFormed(TableOf(Collect(rows), style), Heard(rows, reports[1..]));
    } else {
      assert AllWellFormed([]);
    }
  }

  lemma ConsWellFormed(cb: Callback, cbs: seq<Callback>)
    ensures AllWellFormed([cb] + cbs) <==> WellFormed(cb) && AllWellFormed(cbs)
  {
    hide WellFormed;
    assert ([cb] + cbs)[0] == cb;
    assert forall i :: 0 <= i < |cbs| ==> ([cb] + cbs)[i + 1] == cbs[i];
  }

  /** A newline never falls inside a character, so every line of the source is whole too. */
  lemma LineIsComplete(src: seq<bv8>, i: nat)
    requires Complete(src) && i <= |src|
    ensures Complete(src[i..FindByte(src, i, NEWLINE)])
  {
    var e := FindByte(src, i, NEWLINE);
    NoSplitBefore(src, e);
    CompleteTo(src, e);
    CompleteFrom(src[..e], i);
    assert src[..e][i..] == src[i..e];
  }

  lemma {:induction false} FedIsProper<S(!new)>(p: Parser<S>, st: S, src: seq<bv8>, i: nat)
    requires Faithful(p) && i <= |src| && Complete(src)
    ensures AllProper(Fed(p, st, PiecesFrom(src, i, NEWLINE)))
    decreases |src| - i
  {
    hide Proper, Fed, PiecesFrom, Complete;
    var e := FindByte(src, i, NEWLINE);
    LineIsComplete(src, i);
    FirstPiece(src, i, NEWLINE);
    var rest := if e < |src| then PiecesFrom(src, e + 1, NEWLINE) else [];
    FedHead(p, st, src[i..e], rest);
    var next := if e == i then st else p.step(st, src[i..e]).0;
    if e < |src| {
      FedIsProper(p, next, src, e + 1);
    }
    FedNone(p, next);
    BlankIsProper();
    AllConcat(if e == i then [Says(Blank)] else p.step(st, src[i..e]).1, Fed(p, next, rest));
  }

  lemma BlankIsProper()
    ensures AllProper([]) && AllProper([Says(Blank)])
  {
  }

  lemma AllConcat(a: seq<Report>, b: seq<Report>)
    requires AllProper(a) && AllProper(b)
    ensures AllProper(a + b)
  {
    hide Proper;
  }

  /** On well-formed source the layout is given what it needs exactly when no table cell is cut inside a
      character. */
  lemma WellFormedSourceFeedsIff<S(!new)>(p: Parser<S>, src: seq<bv8>)
    requires Faithful(p) && Complete(src)
    ensures AllWellFormed(PageCallbacks(p, src)) <==> Uncut([], PageReports(p, src))
  {
    hide Proper, Fed, PiecesFrom, Complete, WellFormed, Heard, Uncut;
    FedIsProper(p, p.start, src, 0);
    HeardIff([], PageReports(p, src));
  }

  // ---- Frames ---------------------------------------------------------

  /** Scrolling a page moves its window and nothing else: whatever the renderer was doing before, two
      frames of one source have the same height, and each draws the whole page's log as its window
      shows it. */
  lemma FramesAgree<S>(cfg: Config, p: Parser<S>, src: seq<bv8>, pen: Pen, scroll: U16, other: U16)
    requires SafeRun(cfg, Layout(Begun(pen), []), PageCallbacks(p, src))
    ensures AllWellFormed(PageCallbacks(p, src))
    ensures var a := Run(In(cfg, scroll), Layout(Begun(pen), []), PageCallbacks(p, src));
      var b := Run(In(cfg, other), Layout(Begun(pen), []), PageCallbacks(p, src));
      var page := Run(Whole(cfg), Layout(Begun(pen), []), PageCallbacks(p, src));
      a.pen == b.pen == page.pen && a.log == Windowed(page.log, scroll) && b.log == Windowed(page.log, other)
  {
    hide Run, SafeRun;
    var fed := PageCallbacks(p, src);
    ScrollingNeverChangesLayout(cfg, scroll, other, Begun(pen), fed);
    ScrollingNeverChangesLayout(cfg, other, scroll, Begun(pen), fed);
    StartSim(Whole(cfg), scroll, Begun(pen));
    ScrollSim(cfg, scroll, Layout(Begun(pen), []), Layout(Begun(pen), []), PageCallbacks(p, src));
  }
}
