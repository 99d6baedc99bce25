// Bit-level facts shared by the LCD driver and the panel decoder.

/** A narrowing cast of a number that fits loses nothing. */
module ByteCast {
  lemma ByteOfNat(n: nat)
    requires n < 256
    ensures (n as bv8) as nat == n
  {
    // Sixteen cases of sixteen values each keep the bit-level reasoning small.
    match n / 16
    case 0 => case 1 => case 2 => case 3 => case 4 => case 5 => case 6 => case 7 =>
    case 8 => case 9 => case 10 => case 11 => case 12 => case 13 => case 14 => case _ =>
  }
}

module Bits {
  import opened ByteCast

  // A byte index is a shift amount once reduced modulo 8.
  lemma Octal(x: nat)
    ensures x % 8 in {0, 1, 2, 3, 4, 5, 6, 7}
  {
  }

  /** Mirrors a byte end for end in three swap steps: nibbles, pairs, neighbours. */
  function ReverseBits(v: bv8): (r: bv8)
  {
    var nibbles := ((v & 0xF0) >> 4) | ((v & 0x0F) << 4);
    var pairs := ((nibbles & 0xCC) >> 2) | ((nibbles & 0x33) << 2);
    ((pairs & 0xAA) >> 1) | ((pairs & 0x55) << 1)
  }

  // Bit 7 is the leftmost pixel of a byte: 0x80 shifted right by x mod 8.
  function PixelMask(x: nat): bv8 {
    match x % 8
    case 0 => 0x80
    case 1 => 0x40
    case 2 => 0x20
    case 3 => 0x10
    case 4 => 0x08
    case 5 => 0x04
    case 6 => 0x02
    case _ => 0x01
  }

  // Bit 0 is the first line of a dirty byte: 1 shifted left by y mod 8.
  function LineMask(y: nat): bv8 {
    PixelMask(7 - y % 8)
  }

  lemma MasksAreShifts(x: nat)
    ensures PixelMask(x) == (0x80 as bv8) >> (x % 8)
    ensures LineMask(x) == (1 as bv8) << (x % 8)
  {
    Octal(x);
  }

  predicate BitAt(b: bv8, y: nat) {
    b & LineMask(y) != 0
  }

  function WithBit(b: bv8, y: nat): bv8 {
    b | LineMask(y)
  }

  /** Ink is the cleared bit: 1 is white on this panel. */
  function PaintByte(b: bv8, x: nat, black: bool): bv8 {
    if black then b & !PixelMask(x) else b | PixelMask(x)
  }

  lemma PaintedByShift(b: bv8, x: nat, black: bool)
    ensures var mask := (0x80 as bv8) >> (x % 8);
      PaintByte(b, x, black) == (if black then b & !mask else b | mask) && (InkByte(b, x) <==> b & mask == 0)
  {
    MasksAreShifts(x);
  }

  predicate InkByte(b: bv8, x: nat) {
    b & PixelMask(x) == 0
  }

  /** The three swaps really mirror the byte: bit i of the result is bit 7-i of the input. */
  lemma ReverseMirrors(v: bv8, i: nat)
    requires i < 8
    ensures BitAt(ReverseBits(v), i) == BitAt(v, 7 - i)
  {
    Octal(i);
  }

  lemma ReverseInvolution(v: bv8)
    ensures ReverseBits(ReverseBits(v)) == v
  {
  }

  /** A gate address survives the trip over the wire: the decoder recovers the 1-based line. */
  lemma AddressRoundTrip(line: nat)
    requires line < 256
    ensures ReverseBits(ReverseBits(line as bv8)) as nat == line
  {
    var v := line as bv8;
    ReverseInvolution(v);
    EqualBytesEqualInts(ReverseBits(ReverseBits(v)), v);
    ByteOfNat(line);
  }

  lemma EqualBytesEqualInts(v: bv8, w: bv8)
    requires v == w
    ensures v as nat == w as nat
  {
  }

  lemma PaintSame(b: bv8, x: nat, black: bool)
    ensures InkByte(PaintByte(b, x, black), x) == black
  {
    Octal(x);
  }

  lemma PaintOther(b: bv8, x: nat, x': nat, black: bool)
    requires x % 8 != x' % 8
    ensures InkByte(PaintByte(b, x, black), x') == InkByte(b, x')
  {
    Octal(x);
    Octal(x');
  }

  lemma WithBitReads(b: bv8, y: nat, z: nat)
    ensures BitAt(WithBit(b, y), z) <==> y % 8 == z % 8 || BitAt(b, z)
  {
    Octal(y);
    Octal(z);
  }

  lemma ConstantBytes(y: nat)
    ensures BitAt(0xFF, y) && !BitAt(0, y)
  {
    Octal(y);
  }

  lemma WhiteByteHasNoInk(x: nat)
    ensures !InkByte(0xFF, x)
  {
    Octal(x);
  }
}
