// Table rows as they arrive: stripped of their markup, cut to fit, and collected until the table closes.
module CellText {
  import opened Utf8
  import opened Chunks
  import opened TableFit
  import opened SourceLines

  const BAR: bv8 := 0x7C
  const TICK: bv8 := 0x60
  const MAX_CELL := 255

  // ---- The markup taken out -------------------------------------------

  /** How long a command is: a colour takes its digits with it. */
  function Skip(t: seq<bv8>): nat
    requires |t| > 1
  {
    if t[1] == 0x46 || t[1] == 0x42 then (if |t| > 2 && t[2] == 0x54 then 9 else 5) else 2
  }

  function LabelEnd(t: seq<bv8>): nat
    requires |t| > 1
  {
    FindByte(t, 2, 0x5D)
  }

  function LabelStop(t: seq<bv8>): nat
    requires |t| > 1
  {
    FindByte(t[..LabelEnd(t)], 2, TICK)
  }

  /** What is left of a link: after its closing bracket. */
  function AfterLabel(t: seq<bv8>): (r: seq<bv8>)
    requires |t| > 1
    ensures |r| < |t|
  {
    if LabelEnd(t) < |t| then t[LabelEnd(t) + 1..] else []
  }

  /** A cell's text without its commands; of a link the label stays. */
  function Stripped(t: seq<bv8>): seq<bv8>
    decreases |t|
  {
    if t == [] then []
    else if t[0] == TICK && |t| > 1 then
      if t[1] == 0x5B then t[2..LabelStop(t)] + Stripped(AfterLabel(t))
      else Stripped(t[Min(Skip(t), |t|)..])
    else [t[0]] + Stripped(t[1..])
  }

  /** How much of it is stored: at most 255 bytes, and what room the buffer has. */
  function Kept(t: seq<bv8>, room: nat): nat {
    Min(|t|, Min(MAX_CELL, room))
  }

  function Stored(t: seq<bv8>, room: nat): seq<bv8> {
    Stripped(t)[..Kept(Stripped(t), room)]
  }

  // ---- Copying --------------------------------------------------------

  /** Copying is under way: `done` bytes of the whole are in the buffer and `rest` is still to come, unless a
      limit was met; `over` says that it was the buffer's. */
  predicate Going(done: seq<bv8>, full: seq<bv8>, room: nat, over: bool, rest: seq<bv8>) {
    && done <= full && |done| <= Min(MAX_CELL, room)
    && (over ==> |done| == room < MAX_CELL && room < |full|)
    && (over || |done| == MAX_CELL || full == done + rest)
  }

  lemma GoesOn(done: seq<bv8>, full: seq<bv8>, room: nat, over: bool, b: bv8, rest: seq<bv8>)
    requires Going(done, full, room, over, [b] + rest) && |done| < MAX_CELL
    ensures |done| < room ==> Going(done + [b], full, room, over, rest)
    ensures |done| == room ==> forall any :: Going(done, full, room, true, any)
  {
    if |done| < room {
      assert full == done + [b] + rest;
      assert (done + [b])[..|done|] == done;
    }
  }

  lemma GoesTo(done: seq<bv8>, full: seq<bv8>, room: nat, over: bool, rest: seq<bv8>)
    requires Going(done, full, room, over, rest) && (over || rest == [] || |done| >= MAX_CELL)
    ensures |done| == Kept(full, room) <= |full| && done == full[..Kept(full, room)] && (over <==> room < MAX_CELL && room < |full|)
  {
    if !over && |done| != MAX_CELL {
      assert full == done;
    }
  }

  lemma GoesPast(done: seq<bv8>, full: seq<bv8>, room: nat, over: bool, part: seq<bv8>, rest: seq<bv8>)
    requires Going(done, full, room, over, part + rest) && (over || part == [] || |done| >= MAX_CELL)
    ensures Going(done, full, room, over, rest)
  {
    assert part == [] ==> part + rest == rest;
  }

  /** What the buffer holds meanwhile: what it held before, and the bytes done. */
  ghost predicate Busy(tbuf: array<bv8>, start: nat, n: nat, over: bool, before: seq<bv8>, done: seq<bv8>, full: seq<bv8>, rest: seq<bv8>)
    reads tbuf
  {
    start + n <= tbuf.Length && n == |done| && tbuf[..start + n] == before + done && Going(done, full, tbuf.Length - start, over, rest)
  }

  /** Strips and copies in one pass, into the buffer from `start` on. */
  method CopyCell(t: seq<bv8>, tbuf: array<bv8>, start: nat) returns (n: nat, over: bool)
    requires start <= tbuf.Length
    modifies tbuf
    ensures start + n <= tbuf.Length
    ensures n == |Stored(t, tbuf.Length - start)| && tbuf[..start + n] == old(tbuf[..start]) + Stored(t, tbuf.Length - start)
    ensures over <==> tbuf.Length - start < MAX_CELL && tbuf.Length - start < |Stripped(t)|
  {
    ghost var before, done: seq<bv8> := tbuf[..start], [];
    Starts(t, tbuf, start);
    hide Stripped, Busy, Stored;
    var k := 0;
    n, over := 0, false;
    while k < |t| && n < MAX_CELL
      invariant k <= |t| && Busy(tbuf, start, n, over, before, done, Stripped(t), Stripped(t[k..]))
    {
      if t[k] == TICK && k + 1 < |t| {
        k, n, over, done := CopyCommand(t, k, tbuf, start, n, over, before, done);
      } else {
        k, n, over, done := CopyByte(t, k, tbuf, start, n, over, before, done);
        if over {
          break;
        }
      }
    }
    Ends(t, k, tbuf, start, n, over, before, done);
  }

  /** A byte of the text itself. */
  method CopyByte(t: seq<bv8>, k0: nat, tbuf: array<bv8>, start: nat, n0: nat, over0: bool, ghost before: seq<bv8>, ghost done0: seq<bv8>)
    returns (k: nat, n: nat, over: bool, ghost done: seq<bv8>)
    requires k0 < |t| && !(t[k0] == TICK && k0 + 1 < |t|) && n0 < MAX_CELL
    requires Busy(tbuf, start, n0, over0, before, done0, Stripped(t), Stripped(t[k0..]))
    modifies tbuf
    ensures k == k0 + 1 && Busy(tbuf, start, n, over, before, done, Stripped(t), Stripped(t[k..]))
  {
    hide Going, Stripped;
    ByteAt(t, k0);
    GoesOn(done0, Stripped(t), tbuf.Length - start, over0, t[k0], Stripped(t[k0 + 1..]));
    k := k0 + 1;
    if start + n0 >= tbuf.Length {
      n, over, done := n0, true, done0;
    } else {
      PutByte(tbuf, start + n0, t[k0]);
      n, over, done := n0 + 1, over0, done0 + [t[k0]];
    }
  }

  /** One command: skipped, but for a link's label. */
  method CopyCommand(t: seq<bv8>, k0: nat, tbuf: array<bv8>, start: nat, n0: nat, over0: bool, ghost before: seq<bv8>, ghost done0: seq<bv8>)
    returns (k: nat, n: nat, over: bool, ghost done: seq<bv8>)
    requires k0 + 1 < |t| && t[k0] == TICK && Busy(tbuf, start, n0, over0, before, done0, Stripped(t), Stripped(t[k0..]))
    modifies tbuf
    ensures k0 < k <= |t| && Busy(tbuf, start, n, over, before, done, Stripped(t), Stripped(t[k..]))
  {
    hide Busy, Stripped;
    if t[k0 + 1] == 0x5B {
      var e := FindFrom(t, k0 + 2, 0x5D, |t|);
      var stop := FindFrom(t, k0 + 2, TICK, e);
      LabelAt(t, k0, e, stop);
      k := if e < |t| then e + 1 else |t|;
      n, over, done := CopyLabel(t, k0 + 2, stop, tbuf, start, n0, over0, before, done0, Stripped(t), Stripped(t[k..]));
    } else {
      var skip := if t[k0 + 1] == 0x46 || t[k0 + 1] == 0x42 then (if k0 + 2 < |t| && t[k0 + 2] == 0x54 then 9 else 5) else 2;
      CommandAt(t, k0, skip);
      k, n, over, done := k0 + Min(skip, |t| - k0), n0, over0, done0;
    }
  }

  method FindFrom(t: seq<bv8>, from: nat, b: bv8, end: nat) returns (e: nat)
    requires from <= end <= |t|
    ensures from <= e <= end && (forall j :: from <= j < e ==> t[j] != b) && (e < end ==> t[e] == b)
  {
    e := from;
    while e < end && t[e] != b
      invariant from <= e <= end && forall j :: from <= j < e ==> t[j] != b
    {
      e := e + 1;
    }
  }

  /** The label's bytes, as far as they fit. */
  method CopyLabel(t: seq<bv8>, from: nat, stop: nat, tbuf: array<bv8>, start: nat, n0: nat, over0: bool,
                   ghost before: seq<bv8>, ghost done0: seq<bv8>, ghost full: seq<bv8>, ghost rest: seq<bv8>)
    returns (n: nat, over: bool, ghost done: seq<bv8>)
    requires from <= stop <= |t| && Busy(tbuf, start, n0, over0, before, done0, full, t[from..stop] + rest)
    modifies tbuf
    ensures Busy(tbuf, start, n, over, before, done, full, rest)
  {
    hide Going;
    n, over, done := n0, over0, done0;
    var q := from;
    while q < stop && n < MAX_CELL
      invariant from <= q <= stop && Busy(tbuf, start, n, over, before, done, full, t[q..stop] + rest)
    {
      assert t[q..stop] + rest == [t[q]] + (t[q + 1..stop] + rest);
      GoesOn(done, full, tbuf.Length - start, over, t[q], t[q + 1..stop] + rest);
      if start + n >= tbuf.Length {
        over := true;
        break;
      }
      PutByte(tbuf, start + n, t[q]);
      done := done + [t[q]];
      n, q := n + 1, q + 1;
    }
    GoesPast(done, full, tbuf.Length - start, over, t[q..stop], rest);
  }

  method PutByte(tbuf: array<bv8>, at: nat, b: bv8)
    requires at < tbuf.Length
    modifies tbuf
    ensures tbuf[..at + 1] == old(tbuf[..at]) + [b]
  {
    tbuf[at] := b;
  }

  lemma Starts(t: seq<bv8>, tbuf: array<bv8>, start: nat)
    requires start <= tbuf.Length
    ensures Busy(tbuf, start, 0, false, tbuf[..start], [], Stripped(t), Stripped(t[0..]))
  {
    assert t[0..] == t && [] + Stripped(t) == Stripped(t);
  }

  lemma Ends(t: seq<bv8>, k: nat, tbuf: array<bv8>, start: nat, n: nat, over: bool, before: seq<bv8>, done: seq<bv8>)
    requires k <= |t| && Busy(tbuf, start, n, over, before, done, Stripped(t), Stripped(t[k..])) && (over || k == |t| || n >= MAX_CELL)
    ensures start + n <= tbuf.Length && n == |Stored(t, tbuf.Length - start)| && tbuf[..start + n] == before + Stored(t, tbuf.Length - start)
    ensures over <==> tbuf.Length - start < MAX_CELL && tbuf.Length - start < |Stripped(t)|
  {
    hide Going, Stripped;
    StrippedStep(t[k..]);
    GoesTo(done, Stripped(t), tbuf.Length - start, over, Stripped(t[k..]));
  }

  // One step of the stripping.
  lemma StrippedStep(t: seq<bv8>)
    ensures t == [] ==> Stripped(t) == []
    ensures t != [] && !(t[0] == TICK && |t| > 1) ==> Stripped(t) == [t[0]] + Stripped(t[1..])
    ensures t != [] && t[0] == TICK && |t| > 1 && t[1] == 0x5B ==> Stripped(t) == t[2..LabelStop(t)] + Stripped(AfterLabel(t))
    ensures t != [] && t[0] == TICK && |t| > 1 && t[1] != 0x5B ==> Stripped(t) == Stripped(t[Min(Skip(t), |t|)..])
  {
  }

  lemma ByteAt(t: seq<bv8>, k: nat)
    requires k < |t| && !(t[k] == TICK && k + 1 < |t|)
    ensures Stripped(t[k..]) == [t[k]] + Stripped(t[k + 1..])
  {
    assert t[k..][1..] == t[k + 1..];
    StrippedStep(t[k..]);
  }

  lemma CommandAt(t: seq<bv8>, k: nat, skip: nat)
    requires k + 1 < |t| && t[k] == TICK && t[k + 1] != 0x5B
    requires skip == if t[k + 1] == 0x46 || t[k + 1] == 0x42 then (if k + 2 < |t| && t[k + 2] == 0x54 then 9 else 5) else 2
    ensures Stripped(t[k..]) == Stripped(t[k + Min(skip, |t| - k)..])
  {
    var u := t[k..];
    assert Skip(u) == skip;
    assert u[Min(skip, |u|)..] == t[k + Min(skip, |t| - k)..];
    StrippedStep(u);
  }

  lemma LabelAt(t: seq<bv8>, k: nat, e: nat, stop: nat)
    requires k + 2 <= stop <= e <= |t| && t[k] == TICK && t[k + 1] == 0x5B
    requires (forall j :: k + 2 <= j < e ==> t[j] != 0x5D) && (e < |t| ==> t[e] == 0x5D)
    requires (forall j :: k + 2 <= j < stop ==> t[j] != TICK) && (stop < e ==> t[stop] == TICK)
    ensures Stripped(t[k..]) == t[k + 2..stop] + Stripped(t[if e < |t| then e + 1 else |t|..])
  {
    var u := t[k..];
    FoundAt(u, 2, 0x5D, e - k);
    var v := u[..e - k];
    assert forall j :: 0 <= j < |v| ==> v[j] == t[k + j];
    FoundAt(v, 2, TICK, stop - k);
    assert u[2..LabelStop(u)] == t[k + 2..stop];
    assert AfterLabel(u) == t[if e < |t| then e + 1 else |t|..];
    StrippedStep(u);
  }

  // ---- Markup comes off -----------------------------------------------

  /** A cell as it is written: text, two-byte commands, colours of three digits or, after a T, of six, and links with
      and without a target. */
  datatype Piece =
    | Said(text: seq<bv8>)
    | Order(letter: bv8)
    | Colour(letter: bv8, digits: seq<bv8>)
    | TrueColour(letter: bv8, digits: seq<bv8>)
    | Link(caption: seq<bv8>, target: seq<bv8>)
    | Label(caption: seq<bv8>)

  /** Text has no backquote, a label no bracket either; F and B are the colours' letters. */
  predicate Proper(p: Piece) {
    match p
    case Said(text) => 0x60 !in text
    case Order(letter) => letter != 0x5B && letter != 0x46 && letter != 0x42
    case Colour(letter, digits) => (letter == 0x46 || letter == 0x42) && |digits| == 3 && digits[0] != 0x54
    case TrueColour(letter, digits) => (letter == 0x46 || letter == 0x42) && |digits| == 6
    case Link(caption, target) => 0x60 !in caption && 0x5D !in caption && 0x5D !in target
    case Label(caption) => 0x60 !in caption && 0x5D !in caption
  }

  function Written(p: Piece): seq<bv8> {
    match p
    case Said(text) => text
    case Order(letter) => [0x60, letter]
    case Colour(letter, digits) => [0x60, letter] + digits
    case TrueColour(letter, digits) => [0x60, letter, 0x54] + digits
    case Link(caption, target) => [0x60, 0x5B] + (caption + ([0x60] + target)) + [0x5D]
    case Label(caption) => [0x60, 0x5B] + caption + [0x5D]
  }

  function Says(p: Piece): seq<bv8> {
    match p
    case Said(text) => text
    case Link(caption, _) => caption
    case Label(caption) => caption
    case _ => []
  }

  function AllWritten(ps: seq<Piece>): seq<bv8> {
    if ps == [] then [] else Written(ps[0]) + AllWritten(ps[1..])
  }

  function AllSaid(ps: seq<Piece>): seq<bv8> {
    if ps == [] then [] else Says(ps[0]) + AllSaid(ps[1..])
  }

  lemma {:induction false} SaidStays(text: seq<bv8>, rest: seq<bv8>)
    requires 0x60 !in text
    ensures Stripped(text + rest) == text + Stripped(rest)
  {
    hide Stripped;
    if text == [] {
      assert text + rest == rest;
    } else {
      SaidStays(text[1..], rest);
      assert (text + rest)[1..] == text[1..] + rest;
      StrippedStep(text + rest);
    }
  }

  lemma CommandGoes(command: seq<bv8>, rest: seq<bv8>)
    requires |command| > 1 && command[0] == 0x60 && command[1] != 0x5B && Skip(command + rest) == |command|
    ensures Stripped(command + rest) == Stripped(rest)
  {
    hide Stripped;
    StrippedStep(command + rest);
    assert (command + rest)[|command|..] == rest;
  }

  // A link's inside: its label up to the backquote, if there is one.
  lemma LabelStays(caption: seq<bv8>, more: seq<bv8>, rest: seq<bv8>)
    requires 0x60 !in caption && 0x5D !in caption && 0x5D !in more && (more != [] ==> more[0] == 0x60)
    ensures Stripped([0x60, 0x5B] + (caption + more) + [0x5D] + rest) == caption + Stripped(rest)
  {
    hide Stripped;
    var t := [0x60, 0x5B] + (caption + more) + [0x5D] + rest;
    var e, stop := 2 + |caption| + |more|, 2 + |caption|;
    assert forall j :: 2 <= j < e ==> t[j] == (caption + more)[j - 2];
    assert t[2..stop] == caption && t[e + 1..] == rest && t[0..] == t;
    LabelAt(t, 0, e, stop);
  }

  lemma PieceComesOff(p: Piece, rest: seq<bv8>)
    requires Proper(p)
    ensures Stripped(Written(p) + rest) == Says(p) + Stripped(rest)
  {
    hide Stripped;
    assert [] + Stripped(rest) == Stripped(rest);
    match p
    case Said(text) => SaidStays(text, rest);
    case Order(letter) => CommandGoes(Written(p), rest);
    case Colour(letter, digits) => CommandGoes(Written(p), rest);
    case TrueColour(letter, digits) => CommandGoes(Written(p), rest);
    case Link(caption, target) => LabelStays(caption, [0x60] + target, rest);
    case Label(caption) =>
      LabelStays(caption, [], rest);
      assert caption + [] == caption;
  }

  /** Whatever a cell is written of, what is left of it is what it says, in order, and no more. */
  lemma {:induction false} MarkupComesOff(ps: seq<Piece>)
    requires forall i :: 0 <= i < |ps| ==> Proper(ps[i])
    ensures Stripped(AllWritten(ps)) == AllSaid(ps)
  {
    hide Stripped, Written, Says;
    if ps != [] {
      PieceComesOff(ps[0], AllWritten(ps[1..]));
      MarkupComesOff(ps[1..]);
    } else {
      StrippedStep([]);
    }
  }

  // ---- Where the cut falls --------------------------------------------

  predicate IsTail(b: bv8) {
    0x80 <= b < 0xC0
  }

  /** Every lead byte is followed by all of its tails. */
  predicate Complete(t: seq<bv8>) {
    forall i :: 0 <= i < |t| && SeqLen(t[i]) > 1 ==> HasTails(t, i)
  }

  predicate HasTails(t: seq<bv8>, i: nat)
    requires i < |t|
  {
    i + SeqLen(t[i]) <= |t| && forall j :: i < j < i + SeqLen(t[i]) ==> IsTail(t[j])
  }

  /** Cut after n bytes, the text ends inside a character. */
  predicate SplitAt(t: seq<bv8>, n: nat)
    requires n <= |t|
  {
    exists i :: 0 <= i < n && i + SeqLen(t[i]) > n
  }

  lemma LeadIsNoTail(b: bv8)
    ensures SeqLen(b) > 1 ==> !IsTail(b) && b >= 0x80
    ensures 1 <= SeqLen(b) <= 4
  {
  }

  lemma CompleteFrom(t: seq<bv8>, k: nat)
    requires Complete(t) && k <= |t|
    ensures Complete(t[k..])
  {
    forall i | 0 <= i < |t[k..]| && SeqLen(t[k..][i]) > 1
      ensures HasTails(t[k..], i)
    {
      assert HasTails(t, k + i);
    }
  }

  /** A prefix that splits no character has all its tails. */
  lemma CompleteTo(t: seq<bv8>, n: nat)
    requires Complete(t) && n <= |t| && !SplitAt(t, n)
    ensures Complete(t[..n])
  {
    forall i | 0 <= i < |t[..n]| && SeqLen(t[..n][i]) > 1
      ensures HasTails(t[..n], i)
    {
      assert HasTails(t, i);
    }
  }

  lemma NoSplitBefore(t: seq<bv8>, n: nat)
    requires Complete(t) && n <= |t| && (n < |t| ==> !IsTail(t[n]))
    ensures !SplitAt(t, n)
  {
    forall i | 0 <= i < n
      ensures i + SeqLen(t[i]) <= n
    {
      if SeqLen(t[i]) > 1 {
        assert HasTails(t, i);
      }
    }
  }

  lemma CompleteJoin(a: seq<bv8>, b: seq<bv8>)
    requires Complete(a) && Complete(b)
    ensures Complete(a + b)
  {
    forall i | 0 <= i < |a + b| && SeqLen((a + b)[i]) > 1
      ensures HasTails(a + b, i)
    {
      if i < |a| {
        assert HasTails(a, i);
      } else {
        assert HasTails(b, i - |a|);
        assert forall j :: i < j < i + SeqLen((a + b)[i]) ==> (a + b)[j] == b[j - |a|];
      }
    }
  }

  lemma {:induction false} CompleteIsChunked(t: seq<bv8>, k: nat)
    requires Complete(t) && k <= |t|
    ensures Chunked(t, k)
    decreases |t| - k
  {
    if k < |t| {
      LeadIsNoTail(t[k]);
      if SeqLen(t[k]) > 1 {
        assert HasTails(t, k);
      }
      CompleteIsChunked(t, k + SeqLen(t[k]));
    }
  }

  // The walk from k meets every lead byte.
  lemma {:induction false} ChunkedTo(t: seq<bv8>, n: nat, k: nat, i: nat)
    requires Complete(t) && k <= i < n <= |t| && SeqLen(t[i]) > 1 && Chunked(t[..n], k)
    ensures i + SeqLen(t[i]) <= n
    decreases i - k
  {
    LeadIsNoTail(t[k]);
    assert SeqLen(t[k]) > 1 ==> HasTails(t, k);
    if k < i {
      LeadIsNoTail(t[i]);
      ChunkedTo(t, n, k + SeqLen(t[k]), i);
    }
  }

  /** Cut after n bytes the text is still chunked exactly when the cut splits no character. */
  lemma CutIsChunkedIff(t: seq<bv8>, n: nat)
    requires Complete(t) && n <= |t|
    ensures Chunked(t[..n], 0) <==> !SplitAt(t, n)
  {
    if !SplitAt(t, n) {
      CompleteTo(t, n);
      CompleteIsChunked(t[..n], 0);
    } else {
      var i :| 0 <= i < n && i + SeqLen(t[i]) > n;
      if Chunked(t[..n], 0) {
        LeadIsNoTail(t[i]);
        ChunkedTo(t, n, 0, i);
      }
    }
  }

  /** Taking the markup out leaves every character whole. */
  lemma {:induction false} StrippedIsComplete(t: seq<bv8>)
    requires Complete(t)
    ensures Complete(Stripped(t))
    decreases |t|
  {
    if t != [] {
      if t[0] == TICK && |t| > 1 {
        if t[1] == 0x5B {
          LabelIsComplete(t);
          if LabelEnd(t) < |t| {
            CompleteFrom(t, LabelEnd(t) + 1);
          }
          StrippedIsComplete(AfterLabel(t));
          CompleteJoin(t[2..LabelStop(t)], Stripped(AfterLabel(t)));
        } else {
          CompleteFrom(t, Min(Skip(t), |t|));
          StrippedIsComplete(t[Min(Skip(t), |t|)..]);
        }
      } else {
        FirstIsComplete(t);
      }
    }
  }

  lemma LabelIsComplete(t: seq<bv8>)
    requires Complete(t) && |t| > 1
    ensures Complete(t[2..LabelStop(t)])
  {
    var stop := LabelStop(t);
    assert stop < LabelEnd(t) ==> t[stop] == t[..LabelEnd(t)][stop];
    NoSplitBefore(t, stop);
    CompleteTo(t, stop);
    CompleteFrom(t[..stop], 2);
    assert t[..stop][2..] == t[2..stop];
  }

  // A character is kept with its tails, for no tail is a command.
  lemma FirstIsComplete(t: seq<bv8>)
    requires Complete(t) && t != [] && !(t[0] == TICK && |t| > 1)
    ensures Complete(Stripped(t))
    decreases |t|, 0
  {
    LeadIsNoTail(t[0]);
    var n := SeqLen(t[0]);
    if n > 1 {
      assert HasTails(t, 0);
    }
    CharKept(t, n);
    CompleteFrom(t, n);
    StrippedIsComplete(t[n..]);
    NoSplitAfter(t, n);
    CompleteTo(t, n);
    CompleteJoin(t[..n], Stripped(t[n..]));
  }

  lemma NoSplitAfter(t: seq<bv8>, n: nat)
    requires Complete(t) && t != [] && n == SeqLen(t[0]) <= |t|
    ensures !SplitAt(t, n)
  {
    assert SeqLen(t[0]) > 1 ==> HasTails(t, 0);
    forall i | 0 <= i < n
      ensures i + SeqLen(t[i]) <= n
    {
      LeadIsNoTail(t[i]);
    }
  }

  lemma {:induction false} CharKept(t: seq<bv8>, n: nat)
    requires n <= |t| && (n > 0 ==> !(t[0] == TICK && |t| > 1)) && forall j :: 1 <= j < n ==> t[j] != TICK
    ensures Stripped(t) == t[..n] + Stripped(t[n..])
    decreases n
  {
    hide Stripped;
    if n > 0 {
      StrippedStep(t);
      CharKept(t[1..], n - 1);
      assert t[1..][n - 1..] == t[n..] && [t[0]] + t[1..][..n - 1] == t[..n];
    } else {
      assert t[0..] == t;
    }
  }

  /** A cell is stored chunked exactly when the cut splits no character of what it says. */
  lemma StoredIsChunkedIff(t: seq<bv8>, room: nat)
    requires Complete(t)
    ensures Chunked(Stored(t, room), 0) <==> !SplitAt(Stripped(t), Kept(Stripped(t), room))
  {
    StrippedIsComplete(t);
    CutIsChunkedIff(Stripped(t), Kept(Stripped(t), room));
  }

  /** Encoded text has all its tails, and a cut splits one of its characters exactly when the byte behind it is
      a tail. */
  lemma {:induction false} TextIsComplete(cps: seq<bv32>)
    requires forall i :: 0 <= i < |cps| ==> Scalar(cps[i])
    ensures Complete(Text(cps))
    decreases |cps|
  {
    if cps != [] {
      TextIsComplete(cps[1..]);
      EncodedIsComplete(cps[0]);
      CompleteJoin(Encode(cps[0]), Text(cps[1..]));
    }
  }

  lemma EncodedIsComplete(cp: bv32)
    requires Scalar(cp)
    ensures Complete(Encode(cp)) && SeqLen(Encode(cp)[0]) == |Encode(cp)|
    ensures forall j :: 1 <= j < |Encode(cp)| ==> IsTail(Encode(cp)[j])
  {
    EncodeShape(cp);
    TailsAreTails(cp);
    var e := Encode(cp);
    forall i | 0 <= i < |e| && SeqLen(e[i]) > 1
      ensures HasTails(e, i)
    {
      LeadIsNoTail(e[i]);
    }
  }

  lemma TailsAreTails(cp: bv32)
    requires Scalar(cp)
    ensures forall j :: 1 <= j < |Encode(cp)| ==> IsTail(Encode(cp)[j])
  {
    TailIs(cp);
    TailIs(cp >> 6);
    TailIs(cp >> 12);
  }

  lemma TailIs(v: bv32)
    ensures IsTail(Tail(v))
  {
    TailBits(v);
    var b := Tail(v);
    assert b & 0xC0 == 0x80 ==> 0x80 <= b < 0xC0;
  }

  lemma {:induction false} TextCutIff(cps: seq<bv32>, n: nat)
    requires (forall i :: 0 <= i < |cps| ==> Scalar(cps[i])) && n <= |Text(cps)|
    ensures SplitAt(Text(cps), n) <==> n < |Text(cps)| && IsTail(Text(cps)[n])
    decreases |cps|
  {
    if cps != [] {
      var e, rest := Encode(cps[0]), Text(cps[1..]);
      var t := e + rest;
      EncodedIsComplete(cps[0]);
      TextIsComplete(cps);
      if n < |e| {
        if n > 0 {
          assert 0 + SeqLen(t[0]) > n;
        } else if SeqLen(t[0]) > 1 {
          LeadIsNoTail(t[0]);
        }
        assert n == 0 ==> !SplitAt(t, n);
        assert n == 0 ==> !IsTail(t[0]) by { FirstIsNoTail(cps[0]); }
      } else {
        TextCutIff(cps[1..], n - |e|);
        ShiftedSplit(e, rest, n);
      }
    }
  }

  lemma FirstIsNoTail(cp: bv32)
    requires Scalar(cp)
    ensures !IsTail(Encode(cp)[0])
  {
    EncodeShape(cp);
    LeadIsNoTail(Encode(cp)[0]);
  }

  lemma ShiftedSplit(e: seq<bv8>, rest: seq<bv8>, n: nat)
    requires Complete(e) && e != [] && SeqLen(e[0]) == |e| && |e| <= n <= |e| + |rest| && forall j :: 1 <= j < |e| ==> IsTail(e[j])
    ensures SplitAt(e + rest, n) <==> SplitAt(rest, n - |e|)
  {
    var t := e + rest;
    forall i | 0 <= i < |e|
      ensures i + SeqLen(t[i]) <= n
    {
      LeadIsNoTail(t[i]);
    }
    if SplitAt(t, n) {
      var i :| 0 <= i < n && i + SeqLen(t[i]) > n;
      assert t[i] == rest[i - |e|];
    }
    if SplitAt(rest, n - |e|) {
      var i :| 0 <= i < n - |e| && i + SeqLen(rest[i]) > n - |e|;
      assert t[i + |e|] == rest[i];
    }
  }
}
