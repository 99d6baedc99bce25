// The keypad scanner: draining its event FIFO over a bus that may answer anything.
module ScannerEvents {
  import opened Wrappers

  const ROWS := 8
  const COLS := 10
  const GPI_FIRST := 97

  datatype KeyEvent = KeyEvent(row: nat, col: nat, pressed: bool)

  /** One FIFO byte: bit 7 press or release, the low seven bits a key number counted across columns. */
  function Decode(raw: bv8): Option<KeyEvent> {
    var key := (raw & 0x7F) as nat;
    if raw == 0 || key == 0 || key >= GPI_FIRST || key > ROWS * COLS then None
    else Some(KeyEvent((key - 1) / COLS, (key - 1) % COLS, raw & 0x80 != 0))
  }

  predicate OnMatrix(ev: KeyEvent) {
    ev.row < ROWS && ev.col < COLS
  }

  /** The byte the chip puts in its FIFO for a matrix event. */
  function Encode(ev: KeyEvent): bv8
    requires OnMatrix(ev)
  {
    ((10 * ev.row + ev.col + 1) as bv8) | if ev.pressed then 0x80 else 0
  }

  /** The numbering of the keypad: ten to a row, from one; bit 7 says pressed. */
  lemma KeyNumbers(row: nat, col: nat, pressed: bool)
    requires row < 8 && col < 10
    ensures Encode(KeyEvent(row, col, pressed)) as nat == 10 * row + col + 1 + if pressed then 128 else 0
  {
    KeyByte(10 * row + col + 1, pressed);
    HighBit(Encode(KeyEvent(row, col, pressed)));
  }

  lemma HighBit(raw: bv8)
    ensures raw as nat == (raw & 0x7F) as nat + if raw & 0x80 != 0 then 128 else 0
  {
  }

  lemma KeyByte(key: nat, pressed: bool)
    requires key < 128
    ensures var raw := (key as bv8) | (if pressed then 0x80 else 0 as bv8);
      (raw & 0x7F) as nat == key && (raw & 0x80 != 0) == pressed && (key != 0 ==> raw != 0)
  {
    match key / 16
    case 0 => case 1 => case 2 => case 3 => case 4 => case 5 => case 6 => case _ =>
  }

  /** Every matrix event is decoded from its byte. */
  lemma EncodeDecodes(ev: KeyEvent)
    requires OnMatrix(ev)
    ensures Decode(Encode(ev)) == Some(ev)
  {
    var key := 10 * ev.row + ev.col + 1;
    KeyByte(key, ev.pressed);
    assert (key - 1) / 10 == ev.row && (key - 1) % 10 == ev.col;
  }

  /** And no other byte is decoded: what decodes is an event of the matrix and this is its byte. */
  lemma DecodeEncodes(raw: bv8)
    requires Decode(raw).Some?
    ensures OnMatrix(Decode(raw).value) && Encode(Decode(raw).value) == raw
  {
    var key := (raw & 0x7F) as nat;
    var ev := Decode(raw).value;
    assert 10 * ev.row + ev.col + 1 == key;
    ByteParts(raw);
  }

  lemma ByteParts(raw: bv8)
    ensures raw == (raw & 0x7F) | (if raw & 0x80 != 0 then 0x80 else 0)
    ensures ((raw & 0x7F) as nat) as bv8 == raw & 0x7F
  {
  }

  function DecodeAll(raws: seq<bv8>): seq<KeyEvent>
    decreases |raws|
  {
    if raws == [] then []
    else Kept(raws[0]) + DecodeAll(raws[1..])
  }

  function Kept(raw: bv8): seq<KeyEvent> {
    match Decode(raw) case Some(ev) => [ev] case None => []
  }
}

module Scanner {
  import opened Wrappers
  import opened ScannerEvents

  const INT_STAT: bv8 := 0x02
  const KEY_LCK_EC: bv8 := 0x03
  const KEY_EVENT_A: bv8 := 0x04

  const INT_K: bv8 := 0x01
  const INT_OVR_FLOW: bv8 := 0x08

  /** Whatever is at the other end of the bus: a state that answers reads, or refuses them, and takes
      writes. Nothing is assumed of it. */
  datatype Bus<!S> = Bus(read: (S, bv8) -> (S, Option<bv8>), write: (S, bv8, bv8) -> (S, bool))

  /** The drain as a function: bus state after, events kept, and event reads made. */
  function Drained<S>(bus: Bus<S>, st: S, pending: nat, room: nat): (r: (S, seq<KeyEvent>, nat))
    ensures |r.1| <= room && r.2 <= pending && |r.1| <= r.2
    decreases pending
  {
    if pending == 0 || room == 0 then (st, [], 0)
    else
      var (st1, raw) := bus.read(st, KEY_EVENT_A);
      if raw == None || raw == Some(0) then (st1, [], 1)
      else
        var kept := Kept(raw.value);
        var (st2, more, used) := Drained(bus, st1, pending - 1, room - |kept|);
        (st2, kept + more, used + 1)
  }

  /** Events the chip says are pending: the low four bits of its count register. */
  function Pending(ec: bv8): (n: nat)
    ensures n <= 15
  {
    (ec & 0x0F) as nat
  }

  datatype Poll<!S> = Poll(bus: S, events: seq<KeyEvent>, overflow: bool, used: nat)

  function Polled<S>(bus: Bus<S>, st: S, max: nat): (r: Poll<S>)
    ensures |r.events| <= max && r.used <= 15
  {
    if max == 0 then Poll(st, [], false, 0)
    else
      var (st1, stat) := bus.read(st, INT_STAT);
      if stat == None then Poll(st1, [], false, 0)
      else
        var overflow := stat.value & INT_OVR_FLOW != 0;
        if stat.value & INT_K == 0 then
          Poll(if stat.value != 0 then bus.write(st1, INT_STAT, stat.value).0 else st1, [], overflow, 0)
        else
          var (st2, ec) := bus.read(st1, KEY_LCK_EC);
          if ec == None then Poll(st2, [], overflow, 0)
          else
            var (st3, events, used) := Drained(bus, st2, Pending(ec.value), max);
            Poll(bus.write(st3, INT_STAT, stat.value).0, events, overflow, used)
  }

  const CFG: bv8 := 0x01
  const KP_GPIO1: bv8 := 0x1D
  const KP_GPIO2: bv8 := 0x1E
  const KP_GPIO3: bv8 := 0x1F
  const DEBOUNCE_DIS1: bv8 := 0x29
  const KE_IEN: bv8 := 0x01
  const OVR_FLOW_IEN: bv8 := 0x08
  const OVR_FLOW_M: bv8 := 0x20

  // (1 << n) - 1, cut to a byte.
  function LowBits(n: nat): bv8 {
    match n
    case 0 => 0 case 1 => 1 case 2 => 3 case 3 => 7 case 4 => 15
    case 5 => 31 case 6 => 63 case 7 => 127 case _ => 255
  }

  datatype RegWrite = RegWrite(reg: bv8, value: bv8)

  /** The configuration writes, in order, up to the first that fails. */
  function WriteAll<S>(bus: Bus<S>, st: S, writes: seq<RegWrite>, k: nat): (S, bool)
    decreases writes, |writes| - k
  {
    if k >= |writes| then (st, true)
    else
      var (st1, ok) := bus.write(st, writes[k].reg, writes[k].value);
      if ok then WriteAll(bus, st1, writes, k + 1) else (st1, false)
  }

  lemma WriteOne<S>(bus: Bus<S>, st: S, writes: seq<RegWrite>, k: nat)
    ensures k == |writes| ==> WriteAll(bus, st, writes, k) == (st, true)
    ensures k < |writes| ==>
      var (st1, ok) := bus.write(st, writes[k].reg, writes[k].value);
      WriteAll(bus, st, writes, k) == if ok then WriteAll(bus, st1, writes, k + 1) else (st1, false)
  {
  }

  function Setup(rows: nat, cols: nat): seq<RegWrite> {
    [RegWrite(KP_GPIO1, LowBits(rows)),
     RegWrite(KP_GPIO2, if cols >= 8 then 0xFF else LowBits(cols)),
     RegWrite(KP_GPIO3, if cols > 8 then LowBits(cols - 8) else 0),
     RegWrite(DEBOUNCE_DIS1, 0),
     RegWrite(CFG, KE_IEN | OVR_FLOW_IEN | OVR_FLOW_M)]
  }

  function Configured<S>(bus: Bus<S>, st: S, rows: nat, cols: nat): (S, bool) {
    if rows == 0 || rows > ROWS || cols == 0 || cols > COLS then (st, false)
    else
      var (st1, ok) := WriteAll(bus, st, Setup(rows, cols), 0);
      if !ok then (st1, false)
      else
        var (st2, stat) := bus.read(st1, INT_STAT);
        (if stat != None && stat != Some(0) then bus.write(st2, INT_STAT, stat.value).0 else st2, true)
  }

  class Tca8418<S> {
    const chip: Bus<S>
    var bus: S
    var overflowed: bool

    /** Claims the matrix; stops at the first write the bus refuses. */
    method Begin(rows: nat, cols: nat) returns (ok: bool)
      modifies this
      ensures (bus, ok) == Configured(chip, old(bus), rows, cols) && overflowed == old(overflowed)
    {
      hide LowBits, WriteAll;
      if rows == 0 || rows > ROWS || cols == 0 || cols > COLS {
        return false;
      }
      var rowMask := LowBits(rows);
      var colMask1 := if cols >= 8 then 0xFF else LowBits(cols);
      var colMask2 := if cols > 8 then LowBits(cols - 8) else 0;
      ghost var setup := Setup(rows, cols);
      ok := WriteNext(KP_GPIO1, rowMask, setup, 0);
      if !ok { return; }
      ok := WriteNext(KP_GPIO2, colMask1, setup, 1);
      if !ok { return; }
      ok := WriteNext(KP_GPIO3, colMask2, setup, 2);
      if !ok { return; }
      ok := WriteNext(DEBOUNCE_DIS1, 0, setup, 3);
      if !ok { return; }
      ok := WriteNext(CFG, KE_IEN | OVR_FLOW_IEN | OVR_FLOW_M, setup, 4);
      if !ok { return; }
      WriteOne(chip, bus, setup, 5);
      var answer := chip.read(bus, INT_STAT);
      bus := answer.0;
      if answer.1 != None && answer.1 != Some(0) {
        bus := chip.write(bus, INT_STAT, answer.1.value).0;
      }
      return true;
    }

    // One write of the setup.
    method WriteNext(reg: bv8, v: bv8, ghost setup: seq<RegWrite>, ghost k: nat) returns (ok: bool)
      requires k < |setup| && setup[k] == RegWrite(reg, v)
      modifies `bus
      ensures WriteAll(chip, old(bus), setup, k) == if ok then WriteAll(chip, bus, setup, k + 1) else (bus, false)
    {
      WriteOne(chip, bus, setup, k);
      var done := chip.write(bus, reg, v);
      bus, ok := done.0, done.1;
    }

    constructor (chip: Bus<S>, bus: S)
      ensures this.chip == chip && this.bus == bus && !overflowed
    {
      this.chip, this.bus, overflowed := chip, bus, false;
    }

    /** Drains the FIFO into `out`. Against any bus at all it ends within fifteen event reads, never
        writes past `max` and leaves the rest of the array alone. */
    method PollInto(out: array?<KeyEvent>, max: nat) returns (n: nat)
      requires out != null ==> max <= out.Length
      modifies this, out
      ensures var p := Polled(chip, old(bus), if out == null then 0 else max);
        && n == |p.events| && bus == p.bus && overflowed == (old(overflowed) || p.overflow)
        && (out != null ==> out[..n] == p.events && out[n..] == old(out[n..]))
    {
      if out == null || max == 0 {
        return 0;
      }
      var answer := chip.read(bus, INT_STAT);
      bus := answer.0;
      if answer.1 == None {
        return 0;
      }
      var stat := answer.1.value;
      if stat & INT_OVR_FLOW != 0 {
        overflowed := true;
      }
      n := 0;
      if stat & INT_K != 0 {
        var count := chip.read(bus, KEY_LCK_EC);
        bus := count.0;
        if count.1 == None {
          return 0;
        }
        n := Drain(out, max, Pending(count.1.value));
      }
      if stat != 0 {
        bus := chip.write(bus, INT_STAT, stat).0;
      }
    }

    method Store(out: array<KeyEvent>, n: nat, raw: bv8) returns (next: nat)
      requires n < out.Length
      modifies out
      ensures next == n + |Kept(raw)| && next <= n + 1
      ensures out[..next] == old(out[..n]) + Kept(raw) && out[next..] == old(out[n..])[next - n..]
    {
      hide Decode;
      next := n;
      var ev := Decode(raw);
      if ev.Some? {
        out[n] := ev.value;
        next := n + 1;
      }
    }

    method Drain(out: array<KeyEvent>, max: nat, count: nat) returns (n: nat)
      requires max <= out.Length
      modifies `bus, out
      ensures var d := Drained(chip, old(bus), count, max);
        bus == d.0 && n == |d.1| && out[..n] == d.1 && out[n..] == old(out[n..])
    {
      hide Kept, Drained;
      ghost var target := Drained(chip, bus, count, max);
      ghost var kept: seq<KeyEvent> := [];
      var pending: nat := count;
      n := 0;
      while pending > 0 && n < max
        invariant n <= max && pending <= count
        invariant out[..n] == kept && out[n..] == old(out[..])[n..]
        invariant Drained(chip, bus, pending, max - n).0 == target.0
        invariant kept + Drained(chip, bus, pending, max - n).1 == target.1
        decreases pending
      {
        DrainUnfolds(chip, bus, pending, max - n, kept);
        var answer := chip.read(bus, KEY_EVENT_A);
        bus := answer.0;
        if answer.1 == None || answer.1 == Some(0) {
          return;
        }
        n := Store(out, n, answer.1.value);
        kept := kept + Kept(answer.1.value);
        pending := pending - 1;
      }
      DrainStops(chip, bus, pending, max - n);
    }
  }

  lemma DrainStops<S>(bus: Bus<S>, st: S, pending: nat, room: nat)
    requires pending == 0 || room == 0
    ensures Drained(bus, st, pending, room) == (st, [], 0)
  {
  }

  lemma DrainUnfolds<S>(bus: Bus<S>, st: S, pending: nat, room: nat, sofar: seq<KeyEvent>)
    requires pending > 0 && room > 0
    ensures var (st1, raw) := bus.read(st, KEY_EVENT_A); var d := Drained(bus, st, pending, room);
      if raw == None || raw == Some(0) then d.0 == st1 && sofar + d.1 == sofar
      else
        var kept := Kept(raw.value);
        |kept| <= 1
        && d.0 == Drained(bus, st1, pending - 1, room - |kept|).0
        && sofar + d.1 == (sofar + kept) + Drained(bus, st1, pending - 1, room - |kept|).1
  {
    hide Decode;
    var (st1, raw) := bus.read(st, KEY_EVENT_A);
    if raw != None && raw != Some(0) {
      var rest := Drained(bus, st1, pending - 1, room - |Kept(raw.value)|).1;
      assert sofar + (Kept(raw.value) + rest) == (sofar + Kept(raw.value)) + rest;
    }
  }

  // ---- Against the real chip ------------------------------------------

  /** The chip's own FIFO: reading the event register takes its head, or answers zero when it is empty.
      The count register may report anything. */
  datatype Fifo = Fifo(queue: seq<bv8>, stat: bv8, count: seq<bv8> -> bv8)

  function FifoRead(f: Fifo, reg: bv8): (Fifo, Option<bv8>) {
    if reg == 0x02 then (f, Some(f.stat))
    else if reg == 0x03 then (f, Some(f.count(f.queue)))
    else if reg == 0x04 && f.queue != [] then (f.(queue := f.queue[1..]), Some(f.queue[0]))
    else (f, Some(0))
  }

  function FifoBus(): Bus<Fifo> {
    Bus(FifoRead, (f: Fifo, reg: bv8, v: bv8) => (if reg == 0x02 then f.(stat := f.stat & !v) else f, true))
  }

  lemma ZeroIsNothing()
    ensures Kept(0) == []
  {
  }

  lemma KeptFits(raw: bv8)
    ensures |Kept(raw)| <= 1
  {
  }

  // One read of the chip's event register, as the drain makes it.
  lemma DrainTakes(f: Fifo, pending: nat, room: nat)
    requires pending > 0 && room > 0 && f.queue != []
    ensures var (raw, f1) := (f.queue[0], f.(queue := f.queue[1..])); var d := Drained(FifoBus(), f, pending, room);
      && DecodeAll(f.queue) == Kept(raw) + DecodeAll(f1.queue)
      && (raw == 0 ==> d.0 == f1 && d.1 == [])
      && (raw != 0 ==> |Kept(raw)| <= 1 && var more := Drained(FifoBus(), f1, pending - 1, room - |Kept(raw)|);
                       d.0 == more.0 && d.1 == Kept(raw) + more.1)
  {
    hide Kept, Drained;
    DrainUnfolds(FifoBus(), f, pending, room, []);
    KeptFits(f.queue[0]);
    var events := Drained(FifoBus(), f, pending, room).1;
    assert [] + events == events && [] + Kept(f.queue[0]) == Kept(f.queue[0]);
  }

  lemma {:induction false} DrainConserves(f: Fifo, pending: nat, room: nat)
    ensures var (g, events, _) := Drained(FifoBus(), f, pending, room);
      && events + DecodeAll(g.queue) == DecodeAll(f.queue)
      && g.stat == f.stat && g.count == f.count
      && (0 !in f.queue && pending >= |f.queue| && |events| < room ==> g.queue == [])
    decreases pending
  {
    hide Kept, Drained, DecodeAll, FifoBus;
    if pending > 0 && room > 0 && f.queue != [] {
      var raw, f1 := f.queue[0], f.(queue := f.queue[1..]);
      DrainTakes(f, pending, room);
      if raw != 0 {
        DrainConserves(f1, pending - 1, room - |Kept(raw)|);
      } else {
        ZeroIsNothing();
      }
    } else {
      DrainEnds(f, pending, room);
    }
  }

  // With nothing to take, nothing happens.
  lemma DrainEnds(f: Fifo, pending: nat, room: nat)
    ensures pending == 0 || room == 0 || f.queue == [] ==>
      Drained(FifoBus(), f, pending, room).0 == f && Drained(FifoBus(), f, pending, room).1 == []
  {
  }

  /** Nothing is lost, invented or reordered: what a poll returns followed by what is still queued decodes
      as the queue did before, and a poll with room left, told the true count, empties it. */
  lemma PollConserves(f: Fifo, max: nat)
    ensures var p := Polled(FifoBus(), f, max);
      && p.events + DecodeAll(p.bus.queue) == DecodeAll(f.queue)
      && |p.events| <= max
      && (p.overflow <==> max > 0 && f.stat & 0x08 != 0)
      && (0 !in f.queue && f.stat & 0x01 != 0 && (f.count(f.queue) & 0x0F) as nat == |f.queue| && |p.events| < max
          ==> p.bus.queue == [])
      && (max > 0 ==> p.bus.stat == 0)
  {
    hide Drained;
    if max > 0 && f.stat & INT_K != 0 {
      DrainConserves(f, Pending(f.count(f.queue)), max);
    }
  }

  /** A chip that keeps what is written to it, and clears the status bits written back. */
  datatype Registers = Registers(gpio1: bv8, gpio2: bv8, gpio3: bv8, debounce: bv8, cfg: bv8, stat: bv8)

  function Stored(m: Registers, reg: bv8, v: bv8): Registers {
    if reg == 0x1D then m.(gpio1 := v)
    else if reg == 0x1E then m.(gpio2 := v)
    else if reg == 0x1F then m.(gpio3 := v)
    else if reg == 0x29 then m.(debounce := v)
    else if reg == 0x01 then m.(cfg := v)
    else if reg == 0x02 then m.(stat := m.stat & !v)
    else m
  }

  function RegisterBus(): Bus<Registers> {
    Bus((m: Registers, reg: bv8) => (m, Some(if reg == 0x02 then m.stat else 0)),
        (m: Registers, reg: bv8, v: bv8) => (Stored(m, reg, v), true))
  }

  predicate BitOn(b: bv8, i: nat)
    requires i < 8
  {
    b & ((1 as bv8) << i) != 0
  }

  /** With any other size asked for the bus is not touched. */
  lemma OnlyThatSize<S>(bus: Bus<S>, st: S, rows: nat, cols: nat)
    requires rows == 0 || rows > 8 || cols == 0 || cols > 10
    ensures Configured(bus, st, rows, cols) == (st, false)
  {
  }

  lemma LowBitsAre(n: nat, i: nat)
    requires n <= 8 && i < 8
    ensures BitOn(LowBits(n), i) <==> i < n
    ensures LowBits(8) == 0xFF && LowBits(0) == 0
  {
    match i
    case 0 => case 1 => case 2 => case 3 => case 4 => case 5 => case 6 => case _ =>
  }

  lemma WritesLand(m: Registers, rows: nat, cols: nat)
    ensures var s := Setup(rows, cols);
      WriteAll(RegisterBus(), m, s, 0) == (Registers(s[0].value, s[1].value, s[2].value, 0, 0x29, m.stat), true)
  {
    hide LowBits, WriteAll;
    var s := Setup(rows, cols);
    var b := RegisterBus();
    var m1 := m.(gpio1 := s[0].value);
    var m2 := m1.(gpio2 := s[1].value);
    var m3 := m2.(gpio3 := s[2].value);
    var m4 := m3.(debounce := 0);
    WriteOne(b, m, s, 0);
    WriteOne(b, m1, s, 1);
    WriteOne(b, m2, s, 2);
    WriteOne(b, m3, s, 3);
    WriteOne(b, m4, s, 4);
    WriteOne(b, m4.(cfg := 0x29), s, 5);
  }

  /** Exactly the rectangle asked for is claimed, row by row and column by column; both overflow bits and
      the key interrupt are on, debounce stays on, and no interrupt is left latched. */
  lemma ClaimsTheRectangle(m: Registers, rows: nat, cols: nat, i: nat)
    requires 0 < rows <= 8 && 0 < cols <= 10 && i < 8
    ensures var (g, ok) := Configured(RegisterBus(), m, rows, cols);
      && ok
      && (BitOn(g.gpio1, i) <==> i < rows)
      && (BitOn(g.gpio2, i) <==> i < cols)
      && (BitOn(g.gpio3, i) <==> 8 + i < cols)
      && g.cfg == 0x29 && g.debounce == 0 && g.stat == 0
  {
    hide LowBits, WriteAll, BitOn;
    WritesLand(m, rows, cols);
    LowBitsAre(rows, i);
    LowBitsAre(if cols >= 8 then 8 else cols, i);
    LowBitsAre(if cols > 8 then cols - 8 else 0, i);
  }
}
