// The panel decoder and the wire format it decodes.

/** Geometry and mode bits of the LS027B7DH01. */
module Geometry {
  const WIDTH := 400
  const HEIGHT := 240
  const LINE_BYTES := 50
  const FB_BYTES := 12000
  const TX_MAX := 12482   // 1 + HEIGHT * (1 + LINE_BYTES + 1) + 1

  const M0_WRITE: bv8 := 0x80
  const M1_VCOM: bv8 := 0x40
  const M2_CLEAR: bv8 := 0x20

  type Image = s: seq<bv8> | |s| == FB_BYTES witness seq(FB_BYTES, _ => 0xFF)
  type U16 = x: int | 0 <= x < 0x1_0000

  function Wrap16(x: int): U16 { x % 0x1_0000 }

  function White(): Image {
    seq(FB_BYTES, _ => 0xFF)
  }

  // LINE_BYTES per line, written out so that index arithmetic stays linear.
  function RowStart(y: nat): nat {
    50 * y
  }

  function Line(img: Image, y: nat): seq<bv8>
    requires y < HEIGHT
  {
    img[RowStart(y)..RowStart(y) + LINE_BYTES]
  }
}

/** One panel transaction, as values: what the driver sends and what a decoder makes of it. */
module Wire {
  import opened ByteCast
  import opened Bits
  import opened Geometry

  type Dirty = s: seq<bool> | |s| == HEIGHT witness seq(HEIGHT, _ => false)

  // ---- Encoding -------------------------------------------------------

  function ModeByte(base: bv8, vcom: bool): bv8 {
    base | if vcom then M1_VCOM else 0
  }

  function LineFrame(fb: Image, y: nat): (frame: seq<bv8>)
    requires y < HEIGHT
    ensures |frame| == LINE_BYTES + 2
  {
    [LineAddress(y + 1)] + Line(fb, y) + [0]
  }

  // The gate address goes out least significant bit first.
  function LineAddress(line: nat): bv8
    requires line < 256
  {
    ReverseBits(line as bv8)
  }

  function LineOf(addr: bv8): nat {
    ReverseBits(addr) as nat
  }

  /** The frames of every dirty line from y down. */
  function Frames(fb: Image, dirty: Dirty, y: nat): (frames: seq<bv8>)
    requires y <= HEIGHT
    ensures |frames| == 52 * DirtyFrom(dirty, y)
    decreases dirty, HEIGHT - y
  {
    if y == HEIGHT then []
    else (if dirty[y] then LineFrame(fb, y) else []) + Frames(fb, dirty, y + 1)
  }

  function DirtyFrom(dirty: Dirty, y: nat): (n: nat)
    requires y <= HEIGHT
    ensures n <= HEIGHT - y
    ensures n == 0 <==> forall z :: y <= z < HEIGHT ==> !dirty[z]
    decreases dirty, HEIGHT - y
  {
    if y == HEIGHT then 0 else (if dirty[y] then 1 else 0) + DirtyFrom(dirty, y + 1)
  }

  /** Mode byte, one frame per dirty line, one trailer byte. */
  function UpdateTransaction(fb: Image, dirty: Dirty, vcom: bool): (tx: seq<bv8>)
    ensures |tx| == 52 * DirtyFrom(dirty, 0) + 2 <= TX_MAX
  {
    [ModeByte(M0_WRITE, vcom)] + Frames(fb, dirty, 0) + [0]
  }

  // ---- What is on the wire --------------------------------------------

  /** The mode bytes: write, clear and neither, each with the panel's VCOM phase. */
  lemma ModeBytesAre(vcom: bool)
    ensures ModeByte(M0_WRITE, vcom) == (if vcom then 0xC0 else 0x80)
    ensures ModeByte(M2_CLEAR, vcom) == (if vcom then 0x60 else 0x20)
    ensures ModeByte(0, vcom) == (if vcom then 0x40 else 0x00)
  {
  }

  function Digit(b: bv8, mask: bv8): nat {
    if b & mask != 0 then 1 else 0
  }

  lemma ByteValue(b: bv8)
    ensures b as nat == 128 * Digit(b, 0x80) + 64 * Digit(b, 0x40) + 32 * Digit(b, 0x20) + 16 * Digit(b, 0x10)
                     + 8 * Digit(b, 0x08) + 4 * Digit(b, 0x04) + 2 * Digit(b, 0x02) + Digit(b, 0x01)
  {
  }

  /** The address sent is the line's number with its digits the other way round: the lowest bit counts 128. */
  lemma AddressDigits(line: nat)
    requires line < 256
    ensures var a := LineAddress(line);
      line == 128 * Digit(a, 0x01) + 64 * Digit(a, 0x02) + 32 * Digit(a, 0x04) + 16 * Digit(a, 0x08)
           + 8 * Digit(a, 0x10) + 4 * Digit(a, 0x20) + 2 * Digit(a, 0x40) + Digit(a, 0x80)
  {
    hide ReverseBits;
    var v := line as bv8;
    ByteOfNat(line);
    ByteValue(v);
    MirroredDigits(v);
  }

  lemma MirroredDigits(v: bv8)
    ensures var a := ReverseBits(v);
      && Digit(a, 0x01) == Digit(v, 0x80) && Digit(a, 0x02) == Digit(v, 0x40)
      && Digit(a, 0x04) == Digit(v, 0x20) && Digit(a, 0x08) == Digit(v, 0x10)
      && Digit(a, 0x10) == Digit(v, 0x08) && Digit(a, 0x20) == Digit(v, 0x04)
      && Digit(a, 0x40) == Digit(v, 0x02) && Digit(a, 0x80) == Digit(v, 0x01)
  {
  }

  /** An update on the wire: the mode byte, then 52 bytes for each dirty line in order, its address, its fifty bytes
      of the framebuffer and a zero, and a last zero. */
  lemma UpdateOnTheWire(fb: Image, dirty: Dirty, vcom: bool, y: nat)
    requires y < 240 && dirty[y]
    ensures var tx := UpdateTransaction(fb, dirty, vcom); var o := 1 + 52 * (DirtyFrom(dirty, 0) - DirtyFrom(dirty, y));
      && |tx| == 52 * DirtyFrom(dirty, 0) + 2 && tx[0] == (if vcom then 0xC0 else 0x80) && tx[|tx| - 1] == 0
      && 1 <= o && o + 52 < |tx| && tx[o..o + 52] == [LineAddress(y + 1)] + fb[50 * y..50 * y + 50] + [0]
  {
    hide ModeByte, Frames;
    ModeBytesAre(vcom);
    FramesFrom(fb, dirty, 0, y);
    var n, all := 52 * (DirtyFrom(dirty, 0) - DirtyFrom(dirty, y)), Frames(fb, dirty, 0);
    SliceShifts(ModeByte(M0_WRITE, vcom), all, n);
  }

  /** A full update is 12482 bytes, and that is all the panel's buffer holds. */
  lemma FullUpdateFits(fb: Image, vcom: bool)
    ensures |UpdateTransaction(fb, seq(240, _ => true), vcom)| == 12482 == TX_MAX
  {
    AllDirtyCounts(0);
  }

  lemma {:induction false} AllDirtyCounts(y: nat)
    requires y <= 240
    ensures DirtyFrom(seq(240, _ => true), y) == 240 - y
    decreases 240 - y
  {
    if y < 240 {
      AllDirtyCounts(y + 1);
    }
  }

  lemma SliceShifts(head: bv8, all: seq<bv8>, n: nat)
    requires n + 52 <= |all|
    ensures ([head] + all + [0])[1 + n..1 + n + 52] == all[n..n + 52]
  {
  }

  lemma {:induction false} FramesFrom(fb: Image, dirty: Dirty, z: nat, y: nat)
    requires z <= y < 240 && dirty[y]
    ensures var n := 52 * (DirtyFrom(dirty, z) - DirtyFrom(dirty, y));
      && 0 <= n && n + 52 <= |Frames(fb, dirty, z)| && Frames(fb, dirty, z)[n..n + 52] == LineFrame(fb, y)
    decreases y - z
  {
    hide LineFrame;
    if z < y {
      FramesFrom(fb, dirty, z + 1, y);
      var n := 52 * (DirtyFrom(dirty, z + 1) - DirtyFrom(dirty, y));
      if dirty[z] {
        SlicePast(LineFrame(fb, z), Frames(fb, dirty, z + 1), n);
      } else {
        assert Frames(fb, dirty, z) == Frames(fb, dirty, z + 1);
      }
    } else {
      SliceFirst(LineFrame(fb, y), Frames(fb, dirty, y + 1));
    }
  }

  lemma SlicePast(a: seq<bv8>, b: seq<bv8>, n: nat)
    requires |a| == 52 && n + 52 <= |b|
    ensures (a + b)[52 + n..52 + n + 52] == b[n..n + 52]
  {
  }

  lemma SliceFirst(a: seq<bv8>, b: seq<bv8>)
    requires |a| == 52
    ensures (a + b)[0..52] == a
  {
  }

  // ---- Decoding -------------------------------------------------------

  function PutLine(img: Image, line: nat, bytes: seq<bv8>): Image
    requires |bytes| == LINE_BYTES
  {
    if 1 <= line <= HEIGHT
    then img[..RowStart(line - 1)] + bytes + img[RowStart(line)..]
    else img
  }

  /** The decoder's walk over what is left of a transaction after its mode byte. */
  function Decode(img: Image, rest: seq<bv8>): Image
    decreases |rest|
  {
    if |rest| > 1 + LINE_BYTES
    then Decode(PutLine(img, LineOf(rest[0]), rest[1..1 + LINE_BYTES]), rest[2 + LINE_BYTES..])
    else img
  }

  function LinesIn(rest: seq<bv8>): nat
    decreases |rest|
  {
    if |rest| > 1 + LINE_BYTES
    then (if 1 <= LineOf(rest[0]) <= HEIGHT then 1 else 0) + LinesIn(rest[2 + LINE_BYTES..])
    else 0
  }

  // ---- The two agree --------------------------------------------------

  lemma PutLineReads(img: Image, y: nat, bytes: seq<bv8>, z: nat)
    requires y < HEIGHT && z < HEIGHT && |bytes| == LINE_BYTES
    ensures Line(PutLine(img, y + 1, bytes), z) == if z == y then bytes else Line(img, z)
  {
    var out := PutLine(img, y + 1, bytes);
    if z == y {
      assert Line(out, z) == bytes;
    } else {
      assert Line(out, z) == Line(img, z);
    }
  }

  /** The decoder consumes one whole frame at a time. */
  lemma DecodeOne(img: Image, addr: bv8, bytes: seq<bv8>, tail: seq<bv8>)
    requires |bytes| == LINE_BYTES
    ensures Decode(img, [addr] + bytes + [0] + tail) == Decode(PutLine(img, LineOf(addr), bytes), tail)
    ensures LinesIn([addr] + bytes + [0] + tail)
         == (if 1 <= LineOf(addr) <= HEIGHT then 1 else 0) + LinesIn(tail)
  {
    var all := [addr] + bytes + [0] + tail;
    assert all[1..1 + LINE_BYTES] == bytes;
    assert all[2 + LINE_BYTES..] == tail;
  }

  /** The same step, at index i of a transaction buffer. */
  lemma DecodeAt(img: Image, tx: seq<bv8>, i: nat)
    requires i + 1 + LINE_BYTES < |tx|
    ensures Decode(img, tx[i..]) == Decode(PutLine(img, LineOf(tx[i]), tx[i + 1..i + 51]), tx[i + 52..])
    ensures LinesIn(tx[i..]) == (if 1 <= LineOf(tx[i]) <= HEIGHT then 1 else 0) + LinesIn(tx[i + 52..])
  {
    var rest := tx[i..];
    assert rest[1..1 + LINE_BYTES] == tx[i + 1..i + 51];
    assert rest[2 + LINE_BYTES..] == tx[i + 52..];
  }

  lemma DecodeFrame(img: Image, fb: Image, y: nat, tail: seq<bv8>)
    requires y < HEIGHT
    ensures Decode(img, LineFrame(fb, y) + tail) == Decode(PutLine(img, y + 1, Line(fb, y)), tail)
    ensures LinesIn(LineFrame(fb, y) + tail) == 1 + LinesIn(tail)
  {
    AddressRoundTrip(y + 1);
    DecodeOne(img, LineAddress(y + 1), Line(fb, y), tail);
  }

  /** Decoding the frames of the dirty lines from y down replaces exactly those lines. */
  lemma {:induction false} DecodeFrames(img: Image, fb: Image, dirty: Dirty, y: nat, z: nat)
    requires y <= HEIGHT && z < HEIGHT
    ensures Line(Decode(img, Frames(fb, dirty, y) + [0]), z)
         == if y <= z && dirty[z] then Line(fb, z) else Line(img, z)
    ensures LinesIn(Frames(fb, dirty, y) + [0]) == DirtyFrom(dirty, y)
    decreases HEIGHT - y
  {
    if y < HEIGHT {
      var tail := Frames(fb, dirty, y + 1) + [0];
      if dirty[y] {
        assert Frames(fb, dirty, y) + [0] == LineFrame(fb, y) + tail;
        DecodeFrame(img, fb, y, tail);
        var img' := PutLine(img, y + 1, Line(fb, y));
        PutLineReads(img, y, Line(fb, y), z);
        DecodeFrames(img', fb, dirty, y + 1, z);
      } else {
        assert Frames(fb, dirty, y) + [0] == tail;
        DecodeFrames(img, fb, dirty, y + 1, z);
      }
    }
  }

  /** Two images with the same lines are the same image. */
  lemma SameLinesSameImage(a: Image, b: Image)
    requires forall y :: 0 <= y < HEIGHT ==> Line(a, y) == Line(b, y)
    ensures a == b
  {
    forall i | 0 <= i < FB_BYTES
      ensures a[i] == b[i]
    {
      var y := i / 50;
      assert Line(a, y)[i - RowStart(y)] == Line(b, y)[i - RowStart(y)];
    }
  }

  lemma ModeBits(vcom: bool)
    ensures (ModeByte(M0_WRITE, vcom) & M1_VCOM != 0) == vcom
    ensures (ModeByte(M2_CLEAR, vcom) & M1_VCOM != 0) == vcom
    ensures (ModeByte(0, vcom) & M1_VCOM != 0) == vcom
    ensures ModeByte(M0_WRITE, vcom) & M2_CLEAR == 0 && ModeByte(M0_WRITE, vcom) & M0_WRITE != 0
    ensures ModeByte(M2_CLEAR, vcom) & M2_CLEAR != 0
    ensures ModeByte(0, vcom) & M2_CLEAR == 0 && ModeByte(0, vcom) & M0_WRITE == 0
  {
  }
}
