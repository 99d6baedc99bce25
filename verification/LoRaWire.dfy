/** The same on the air: one header byte, then the payload. */
module LoRaWire {
  import opened Wrappers
  import opened SplitFrames

  const HEADER_SPLIT: bv8 := 0x08
  const HEADER_SEQ_MASK: bv8 := 0x07
  const SEQ_UNSET: bv8 := 0xFF

  function Number(s: bv8): nat {
    (s & HEADER_SEQ_MASK) as nat
  }

  /** A received frame, parsed. */
  function Parsed(bytes: seq<bv8>): Frame<bv8>
    requires bytes != []
  {
    var h := bytes[0];
    Frame(h & HEADER_SPLIT != 0, if h & HEADER_SPLIT != 0 then Number(h) else 0, bytes[1..])
  }

  function Header(nibble: bv8, s: bv8): bv8 {
    (nibble & 0xF0) | HEADER_SPLIT | (s & HEADER_SEQ_MASK)
  }

  lemma HeaderParses(nibble: bv8, s: bv8)
    ensures Header(nibble, s) & HEADER_SPLIT != 0
    ensures Header(nibble, s) & HEADER_SEQ_MASK == s & HEADER_SEQ_MASK
    ensures (nibble & 0xF0) & HEADER_SPLIT == 0
  {
  }

  // The counter's low bits count split packets modulo eight, through every wrap of the byte.
  lemma CounterCounts(c: bv8, sent: nat)
    requires Number(c) == sent % SEQUENCES
    ensures Number(c + 1) == (sent + 1) % SEQUENCES
  {
    match c & HEADER_SEQ_MASK
    case 0 => assert (c + 1) & HEADER_SEQ_MASK == 1;
    case 1 => assert (c + 1) & HEADER_SEQ_MASK == 2;
    case 2 => assert (c + 1) & HEADER_SEQ_MASK == 3;
    case 3 => assert (c + 1) & HEADER_SEQ_MASK == 4;
    case 4 => assert (c + 1) & HEADER_SEQ_MASK == 5;
    case 5 => assert (c + 1) & HEADER_SEQ_MASK == 6;
    case 6 => assert (c + 1) & HEADER_SEQ_MASK == 7;
    case 7 => assert (c + 1) & HEADER_SEQ_MASK == 0;
    case _ =>
  }

  class LoRaSender {
    var counter: bv8
    /** How many split packets this sender has sent. */
    ghost var sent: nat

    ghost predicate Valid()
      reads this
    {
      Number(counter) == sent % SEQUENCES
    }

    constructor ()
      ensures Valid() && sent == 0
    {
      counter, sent := 0, 0;
    }

    /** Puts a packet on the air; the frames read back as the protocol's. The top half of the header is
        random and carries nothing. */
    method Send(data: seq<bv8>, nibble: bv8) returns (frames: seq<seq<bv8>>)
      requires Valid() && |data| <= 508
      modifies this
      ensures Valid() && sent == old(sent) + if |data| > 254 then 1 else 0
      ensures |frames| == if |data| > 254 then 2 else 1
      ensures forall k :: 0 <= k < |frames| ==> 1 <= |frames[k]| <= 255
      ensures |data| <= 254 ==> frames[0] == [nibble & 0xF0] + data
      ensures |data| > 254 ==> frames[0] == [frames[1][0]] + data[..254] && frames[1][1..] == data[254..]
      ensures |data| > 254 ==> (frames[1][0] & 0xF8 == (nibble & 0xF0) | 8) && (frames[1][0] & 7) as nat == old(sent) % 8
      ensures Parsed(frames[0]) == First(data, old(sent))
      ensures Splits(data) ==> Parsed(frames[1]) == Second(data, old(sent))
    {
      HeaderParses(nibble, counter);
      if |data| <= MAX_PAYLOAD {
        frames := [[nibble & 0xF0] + data];
      } else {
        var hdr := Header(nibble, counter);
        CounterCounts(counter, sent);
        counter, sent := counter + 1, sent + 1;
        frames := [[hdr] + data[..MAX_PAYLOAD], [hdr] + data[MAX_PAYLOAD..]];
      }
    }
  }

  class LoRaReceiver {
    var rxSeq: bv8
    var buffer: seq<bv8>
    /** What on_incoming was given, in order. */
    ghost var delivered: seq<seq<bv8>>

    ghost predicate Valid()
      reads this
    {
      rxSeq == SEQ_UNSET || rxSeq & HEADER_SEQ_MASK == rxSeq
    }

    ghost function State(): Rx<bv8>
      reads this
    {
      Rx(if rxSeq == SEQ_UNSET then None else Some(Number(rxSeq)), buffer, delivered)
    }

    constructor ()
      ensures Valid() && State() == Rx(None, [], [])
    {
      rxSeq, buffer, delivered := SEQ_UNSET, [], [];
    }

    /** One frame off the air. */
    method OnFrame(bytes: seq<bv8>) returns (incoming: Option<seq<bv8>>)
      requires Valid() && 1 <= |bytes| <= 255
      modifies this
      ensures Valid() && State() == Receive(old(State()), Parsed(bytes))
      ensures delivered == old(delivered) + if incoming.Some? then [incoming.value] else []
    {
      incoming := None;
      if |bytes| > 1 {
        var hdr := bytes[0];
        var number := hdr & HEADER_SEQ_MASK;
        assert number & HEADER_SEQ_MASK == number && number != SEQ_UNSET;
        if hdr & HEADER_SPLIT != 0 {
          if rxSeq == SEQ_UNSET || rxSeq != number {
            rxSeq, buffer := number, bytes[1..];
          } else {
            rxSeq, buffer := SEQ_UNSET, buffer + bytes[1..];
            incoming := Some(buffer);
          }
        } else {
          rxSeq, buffer := SEQ_UNSET, bytes[1..];
          incoming := Some(buffer);
        }
      }
      delivered := delivered + if incoming.Some? then [incoming.value] else [];
    }
  }
  /** A packet of one to 508 bytes, sent and handed on frame by frame to any receiver not already holding its
      number: the packet comes out once, with the last frame, and the slot is free again. */
  method Exchange(tx: LoRaSender, rx: LoRaReceiver, data: seq<bv8>, nibble: bv8) returns (frames: seq<seq<bv8>>)
    requires tx.Valid() && rx.Valid() && 1 <= |data| <= 508
    requires |data| > 254 ==> rx.State().pending != Some(tx.sent % 8)
    modifies tx, rx
    ensures tx.Valid() && rx.Valid()
    ensures rx.delivered == old(rx.delivered) + [data]
    ensures rx.State().pending == None
    ensures forall k :: 0 <= k < |frames| ==> |frames[k]| <= 255
  {
    frames := tx.Send(data, nibble);
    var first := rx.OnFrame(frames[0]);
    if |frames| > 1 {
      var second := rx.OnFrame(frames[1]);
      assert data == data[..254] + data[254..];
    }
  }
}
