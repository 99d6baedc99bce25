// The host-side decoder that turns the byte stream back into an image.
module PanelModel {
  import opened Bits
  import opened Geometry
  import opened Wire

  /** Everything the decoder remembers; `tx` holds the bytes of the open transaction. */
  datatype Panel = Panel(img: Image, tx: seq<bv8>, selected: bool, vcom: bool,
                         lines: nat, clears: nat, toggles: nat, overflowed: bool)

  function PowerUp(): Panel {
    Panel(White(), [], false, false, 0, 0, 0, false)
  }

  function Applied(p: Panel): Panel {
    if |p.tx| == 0 then p else
    var mode := p.tx[0];
    var want := mode & M1_VCOM != 0;
    var q := p.(vcom := want, toggles := if want != p.vcom then p.toggles + 1 else p.toggles);
    if mode & M2_CLEAR != 0 then q.(img := White(), clears := q.clears + 1)
    else if mode & M0_WRITE == 0 then q
    else q.(img := Decode(q.img, p.tx[1..]), lines := q.lines + LinesIn(p.tx[1..]))
  }

  function Selected(p: Panel, on: bool): Panel {
    if on then p.(selected := true, tx := []) else Applied(p.(selected := false)).(tx := [])
  }

  /** Data with the chip deselected is ignored; data past the buffer is dropped and reported. */
  function Written(p: Panel, data: seq<bv8>): Panel {
    if !p.selected then p
    else if |p.tx| + |data| <= TX_MAX then p.(tx := p.tx + data)
    else if |p.tx| <= TX_MAX then p.(tx := (p.tx + data)[..TX_MAX], overflowed := true)
    else p.(overflowed := true)
  }

  /** Select, write the bytes, deselect. */
  function Transaction(p: Panel, bytes: seq<bv8>): Panel {
    Selected(Written(Selected(p, true), bytes), false)
  }
}

module VirtualPanelDecoder {
  import opened Bits
  import opened Geometry
  import opened Wire
  import opened PanelModel

  class VirtualPanel {
    const img: array<bv8>
    const tx: array<bv8>
    var txLen: nat
    var selected: bool
    var vcom: bool
    var linesWritten: nat
    var clears: nat
    var vcomToggles: nat
    var overflowed: bool

    ghost predicate Valid()
      reads this
    {
      img.Length == FB_BYTES && tx.Length == TX_MAX && txLen <= TX_MAX && img != tx
    }

    ghost function State(): Panel
      reads this, img, tx
      requires Valid()
    {
      Panel(img[..], tx[..txLen], selected, vcom, linesWritten, clears, vcomToggles, overflowed)
    }

    constructor ()
      ensures Valid() && State() == PowerUp()
      ensures fresh(img) && fresh(tx)
    {
      img := new bv8[FB_BYTES](_ => 0xFF);
      tx := new bv8[TX_MAX](_ => 0);
      txLen, selected, vcom := 0, false, false;
      linesWritten, clears, vcomToggles, overflowed := 0, 0, 0, false;
      new;
      assert img[..] == White();
    }

    method Select(on: bool)
      requires Valid()
      modifies this, img
      ensures Valid() && State() == Selected(old(State()), on)
    {
      if on {
        selected := true;
        txLen := 0;
        return;
      }
      selected := false;
      ApplyTransaction();
      txLen := 0;
    }

    method Write(data: seq<bv8>)
      requires Valid()
      modifies this, tx
      ensures Valid() && State() == Written(old(State()), data)
    {
      if !selected {
        return;
      }
      for i := 0 to |data|
        invariant Valid() && selected
        invariant txLen == old(txLen) + i
        invariant tx[..txLen] == old(tx[..txLen]) + data[..i]
        invariant unchanged(`selected, `vcom, `linesWritten, `clears, `vcomToggles, `overflowed)
      {
        if txLen >= TX_MAX {
          overflowed := true;
          assert old(tx[..txLen]) + data[..i] == (old(tx[..txLen]) + data)[..TX_MAX];
          return;
        }
        tx[txLen] := data[i];
        txLen := txLen + 1;
      }
      assert data[..|data|] == data;
    }

    method ApplyTransaction()
      requires Valid()
      modifies this, img
      ensures Valid() && State() == Applied(old(State()))
    {
      if txLen == 0 {
        return;
      }
      var mode := tx[0];
      var wantVcom := mode & M1_VCOM != 0;
      if wantVcom != vcom {
        vcom := wantVcom;
        vcomToggles := vcomToggles + 1;
      }
      if mode & M2_CLEAR != 0 {
        forall i | 0 <= i < img.Length {
          img[i] := 0xFF;
        }
        assert img[..] == White();
        clears := clears + 1;
        return;
      }
      if mode & M0_WRITE == 0 {
        return;
      }
      DecodeLines();
    }

    // The line loop of a data update: address, line bytes, gap, until only a trailer is left.
    method DecodeLines()
      requires Valid() && 1 <= txLen
      modifies `linesWritten, img
      ensures Valid()
      ensures img[..] == Decode(old(img[..]), tx[1..txLen])
      ensures linesWritten == old(linesWritten) + LinesIn(tx[1..txLen])
    {
      var i := 1;
      ghost var all := tx[..txLen];
      assert all[1..] == tx[1..txLen];
      ghost var target, total := Decode(img[..], all[1..]), linesWritten + LinesIn(all[1..]);
      while txLen - i > 1 + LINE_BYTES
        invariant Valid() && 1 <= i <= txLen == |all|
        invariant Decode(img[..], all[i..]) == target
        invariant linesWritten + LinesIn(all[i..]) == total
      {
        DecodeLine(i, all);
        i := i + 1 + LINE_BYTES + 1;
      }
    }

    method DecodeLine(i: nat, ghost all: seq<bv8>)
      requires Valid() && all == tx[..txLen] && i + 1 + LINE_BYTES < txLen
      modifies `linesWritten, img
      ensures Valid()
      ensures Decode(img[..], all[i + 52..]) == Decode(old(img[..]), all[i..])
      ensures linesWritten + LinesIn(all[i + 52..]) == old(linesWritten) + LinesIn(all[i..])
    {
      DecodeAt(img[..], all, i);
      assert all[i + 1..i + 51] == tx[i + 1..i + 51];
      var line := LineOf(tx[i]);
      if 1 <= line <= HEIGHT {
        CopyLine(line, i + 1);
        linesWritten := linesWritten + 1;
      }
    }

    method CopyLine(line: nat, from: nat)
      requires Valid() && 1 <= line <= HEIGHT && from + LINE_BYTES <= TX_MAX
      modifies img
      ensures img[..] == PutLine(old(img[..]), line, tx[from..from + LINE_BYTES])
    {
      var base := RowStart(line - 1);
      forall k | 0 <= k < LINE_BYTES {
        img[base + k] := tx[from + k];
      }
      assert img[..base] == old(img[..base]);
      assert img[base..base + LINE_BYTES] == tx[from..from + LINE_BYTES];
      assert img[base + LINE_BYTES..] == old(img[base + LINE_BYTES..]);
      assert img[..] == img[..base] + img[base..base + LINE_BYTES] + img[base + LINE_BYTES..];
    }

    method Pixel(x: nat, y: nat) returns (black: bool)
      requires Valid()
      ensures black == (x < WIDTH && y < HEIGHT && InkByte(img[RowStart(y) + x / 8], x))
    {
      if x >= WIDTH || y >= HEIGHT {
        return false;
      }
      var b := img[RowStart(y) + x / 8];
      MasksAreShifts(x);
      return b & ((0x80 as bv8) >> (x % 8)) == 0;
    }
  }
}
