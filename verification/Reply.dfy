// The reply text, and why it always fits one packet.
module Decimal {
  function Digit(d: nat): (c: char)
    requires d < 10
    ensures '0' <= c <= '9'
  {
    '0' + d as char
  }

  /** What %lu prints. */
  function Dec(n: nat): (s: string)
    ensures |s| >= 1 && forall i :: 0 <= i < |s| ==> '0' <= s[i] <= '9'
  {
    if n < 10 then [Digit(n)] else Dec(n / 10) + [Digit(n % 10)]
  }

  function Value(s: string): nat
    requires forall i :: 0 <= i < |s| ==> '0' <= s[i] <= '9'
  {
    if s == [] then 0 else 10 * Value(s[..|s| - 1]) + (s[|s| - 1] - '0') as nat
  }

  function Pow10(k: nat): nat {
    if k == 0 then 1 else 10 * Pow10(k - 1)
  }

  /** The digits say the number. */
  lemma {:induction false} DecSays(n: nat)
    ensures Value(Dec(n)) == n
  {
    if n >= 10 {
      DecSays(n / 10);
      assert (Dec(n / 10) + [Digit(n % 10)])[..|Dec(n)| - 1] == Dec(n / 10);
    }
  }

  /** How many there are. */
  lemma {:induction false} DecLength(n: nat, k: nat)
    requires k >= 1
    ensures |Dec(n)| <= k <==> n < Pow10(k)
    decreases n
  {
    if n < 10 {
      PowGrows(k);
    } else if k == 1 {
      assert Pow10(1) == 10 * Pow10(0);
    } else {
      DecLength(n / 10, k - 1);
      assert n / 10 < Pow10(k - 1) <==> n < 10 * Pow10(k - 1);
    }
  }

  lemma {:induction false} PowGrows(k: nat)
    requires k >= 1
    ensures Pow10(k) >= 10
  {
    if k > 1 {
      PowGrows(k - 1);
    }
  }
}

module ReplyText {
  import opened Wrappers
  import opened Decimal

  const BODY_BUF := 72
  const RSSI_BUF := 8
  const SNR_BUF := 10
  const U32 := 0x1_0000_0000

  function Clamp(v: int, lo: int, hi: int): int
    requires lo <= hi
  {
    if v < lo then lo else if v > hi then hi else v
  }

  /** What %ld prints. */
  function Signed(v: int): string {
    if v < 0 then "-" + Dec(-v) else Dec(v)
  }

  /** snprintf into a buffer of `size`: what lands in it. */
  function Fit(text: string, size: nat): string
    requires size >= 1
  {
    if |text| < size then text else text[..size - 1]
  }

  /** A reading as the radio gave it, rounded to whole dBm and to tenths of a dB: any integers at all. */
  datatype Signal = Signal(rssi: int, tenths: int)

  function RssiText(r: int): string {
    Signed(Clamp(r, -200, 20))
  }

  function SnrText(t: int): string {
    var tenths := Clamp(t, -300, 300);
    var mag := if tenths < 0 then -tenths else tenths;
    (if tenths < 0 then "-" else "+") + Dec(mag / 10) + "." + Dec(mag % 10)
  }

  function BodyText(counter: nat, seconds: nat, rssi: string, snr: string, id: string): string {
    "#" + Dec(counter) + " up" + Dec(seconds) + "s r" + rssi + " s" + snr + " id" + id
  }

  function Body(counter: nat, millis: nat, signal: Option<Signal>, hash: string): string {
    BodyText(counter, millis / 1000,
             if signal.Some? then RssiText(signal.value.rssi) else "?",
             if signal.Some? then SnrText(signal.value.tenths) else "?",
             if |hash| > 8 then hash[..8] else hash)
  }

  lemma Powers()
    ensures Pow10(1) == 10 && Pow10(2) == 100 && Pow10(3) == 1000 && Pow10(7) == 10000000 && Pow10(10) == 10000000000
  {
    assert Pow10(4) == 10000 && Pow10(5) == 100000 && Pow10(6) == 1000000 && Pow10(8) == 100000000 && Pow10(9) == 1000000000;
  }

  /** Neither reading ever outgrows its buffer, whatever the radio reported. */
  lemma ReadingsNeverTruncate(r: int, t: int)
    ensures |RssiText(r)| <= 4 && Fit(RssiText(r), RSSI_BUF) == RssiText(r)
    ensures |SnrText(t)| <= 5 && Fit(SnrText(t), SNR_BUF) == SnrText(t)
  {
    hide Dec, Pow10;
    Powers();
    var rssi, tenths := Clamp(r, -200, 20), Clamp(t, -300, 300);
    var mag := if tenths < 0 then -tenths else tenths;
    DecLength(if rssi < 0 then -rssi else rssi, if rssi < 0 then 3 else 2);
    DecLength(mag / 10, 2);
    DecLength(mag % 10, 1);
  }

  /** For every counter, uptime and reading the body is at most forty-six bytes: within the one-packet
      budget, and never cut by its own buffer. */
  lemma BodyFitsOnePacket(counter: nat, millis: nat, signal: Option<Signal>, hash: string)
    requires counter < U32 && millis < U32
    ensures |Body(counter, millis, signal, hash)| <= 46 <= 48
    ensures Fit(Body(counter, millis, signal, hash), BODY_BUF) == Body(counter, millis, signal, hash)
  {
    hide Dec, Pow10, RssiText, SnrText;
    Powers();
    DecLength(counter, 10);
    DecLength(millis / 1000, 7);
    if signal.Some? {
      ReadingsNeverTruncate(signal.value.rssi, signal.value.tenths);
    }
  }

  /** The bound is reached, so the clamps cannot be loosened by a digit each without passing the budget. */
  lemma BodyBoundIsTight(hash: string)
    requires |hash| >= 8
    ensures |Body(0xFFFF_FFFF, 0xFFFF_FFFF, Some(Signal(-200, 300)), hash)| == 46
  {
    hide Dec, Pow10;
    Powers();
    DecLength(0xFFFF_FFFF, 10);
    DecLength(0xFFFF_FFFF, 9);
    DecLength(4294967, 7);
    DecLength(4294967, 6);
    DecLength(200, 3);
    DecLength(200, 2);
    DecLength(30, 2);
    DecLength(30, 1);
    DecLength(0, 1);
    assert Pow10(9) < 0xFFFF_FFFF && Pow10(6) < 4294967 by { NinePowers(); }
  }

  lemma NinePowers()
    ensures Pow10(6) == 1000000 && Pow10(9) == 1000000000
  {
    assert Pow10(3) == 1000 && Pow10(4) == 10000 && Pow10(5) == 100000 && Pow10(7) == 10000000 && Pow10(8) == 100000000;
  }

  // ---- Reading it back ------------------------------------------------

  /** Where the first c is, or the end. */
  function UpTo(s: string, c: char): (e: nat)
    ensures e <= |s| && c !in s[..e] && (e < |s| ==> s[e] == c)
  {
    if s == [] || s[0] == c then 0 else 1 + UpTo(s[1..], c)
  }

  function Words(s: string): (words: seq<string>)
    decreases |s|
  {
    var e := UpTo(s, ' ');
    [s[..e]] + if e < |s| then Words(s[e + 1..]) else []
  }

  /** What stands between a head and a tail. */
  function Between(word: string, head: string, tail: string): Option<string> {
    if |word| >= |head| + |tail| && word[..|head|] == head && word[|word| - |tail|..] == tail
    then Some(word[|head|..|word| - |tail|])
    else None
  }

  predicate Digits(s: string) {
    |s| >= 1 && forall i :: 0 <= i < |s| ==> '0' <= s[i] <= '9'
  }

  function Number(s: Option<string>): Option<nat> {
    if s.Some? && Digits(s.value) then Some(Value(s.value)) else None
  }

  datatype Reading = Absent | At(value: int) | Garbled

  function Whole(s: Option<string>): Reading {
    if s == Some("?") then Absent
    else if Number(s).Some? then At(Number(s).value)
    else if s.Some? && |s.value| > 1 && s.value[0] == '-' && Digits(s.value[1..]) then At(0 - Value(s.value[1..]))
    else Garbled
  }

  function Tenths(s: Option<string>): Reading {
    if s == Some("?") then Absent
    else if s.None? || s.value == "" then Garbled
    else
      var (dot, sign) := (UpTo(s.value, '.'), s.value[0]);
      if 1 < dot < |s.value| - 1 && Digits(s.value[1..dot]) && Digits(s.value[dot + 1..]) && (sign == '+' || sign == '-')
      then var mag := 10 * Value(s.value[1..dot]) + Value(s.value[dot + 1..]); At(if sign == '-' then -mag else mag)
      else Garbled
  }

  datatype Report = Report(counter: Option<nat>, seconds: Option<nat>, rssi: Reading, tenths: Reading, id: Option<string>)

  /** What a peer makes of a body: five words, each by its letters. */
  function Read(body: string): Option<Report> {
    var w := Words(body);
    if |w| != 5 then None
    else Some(Report(Number(Between(w[0], "#", "")), Number(Between(w[1], "up", "s")), Whole(Between(w[2], "r", "")),
                     Tenths(Between(w[3], "s", "")), Between(w[4], "id", "")))
  }

  lemma {:induction false} UpToPast(a: string, c: char, rest: string)
    requires c !in a
    ensures UpTo(a + [c] + rest, c) == |a| && UpTo(a, c) == |a|
  {
    if a != [] {
      UpToPast(a[1..], c, rest);
      assert (a + [c] + rest)[1..] == a[1..] + [c] + rest;
    }
  }

  lemma WordThen(a: string, rest: string)
    requires ' ' !in a
    ensures Words(a + " " + rest) == [a] + Words(rest) && Words(a) == [a]
  {
    hide UpTo;
    UpToPast(a, ' ', rest);
    var all := a + " " + rest;
    assert all == a + [' '] + rest && all[..|a|] == a && all[|a| + 1..] == rest && a[..|a|] == a;
  }

  lemma BetweenReads(head: string, text: string, tail: string)
    ensures Between(head + text + tail, head, tail) == Some(text)
    ensures Between(head + text, head, "") == Some(text)
  {
    var word := head + text + tail;
    assert word[..|head|] == head && word[|word| - |tail|..] == tail && word[|head|..|word| - |tail|] == text;
    var bare := head + text;
    assert bare[..|head|] == head && bare[|head|..|bare|] == text && bare[|bare|..] == "";
  }

  lemma FiveWords(a: string, b: string, c: string, d: string, e: string)
    requires ' ' !in a && ' ' !in b && ' ' !in c && ' ' !in d && ' ' !in e
    ensures Words(a + " " + b + " " + c + " " + d + " " + e) == [a, b, c, d, e]
  {
    hide Words;
    WordThen(d, e);
    WordThen(e, "");
    WordThen(c, d + " " + e);
    WordThen(b, c + " " + (d + " " + e));
    WordThen(a, b + " " + (c + " " + (d + " " + e)));
    assert a + " " + b + " " + c + " " + d + " " + e == a + " " + (b + " " + (c + " " + (d + " " + e)));
  }

  lemma DecReads(n: nat)
    ensures Digits(Dec(n)) && Number(Some(Dec(n))) == Some(n) && Dec(n)[0] != '?'
    ensures ' ' !in Dec(n) && '.' !in Dec(n) && '-' !in Dec(n)
  {
    hide Dec, Value;
    DecSays(n);
  }

  lemma WholeReads(v: int)
    ensures Whole(Some(Signed(v))) == At(v) && ' ' !in Signed(v)
  {
    hide Dec, Value, Digits, Number;
    if v < 0 {
      DecReads(-v);
      DecSays(-v);
      NotDigits(Dec(-v));
      var s := "-" + Dec(-v);
      assert s[1..] == Dec(-v) && s[0] == '-' && s != "?";
    } else {
      DecReads(v);
    }
  }

  lemma NotDigits(rest: string)
    ensures Number(Some("-" + rest)) == None && !Digits("-" + rest)
  {
    assert ("-" + rest)[0] == '-';
  }

  lemma TenthsRead(t: int)
    ensures Tenths(Some(SnrText(t))) == At(if t < -300 then -300 else if t > 300 then 300 else t) && ' ' !in SnrText(t)
  {
    hide Dec, Value, Digits, Number, UpTo;
    var tenths := Clamp(t, -300, 300);
    var mag := if tenths < 0 then -tenths else tenths;
    var sign := if tenths < 0 then "-" else "+";
    var whole, frac := Dec(mag / 10), Dec(mag % 10);
    DecReads(mag / 10);
    DecReads(mag % 10);
    DecSays(mag / 10);
    DecSays(mag % 10);
    var s := SnrText(t);
    assert s == (sign + whole) + ['.'] + frac;
    UpToPast(sign + whole, '.', frac);
    assert s[1..1 + |whole|] == whole && s[2 + |whole|..] == frac;
  }

  /** The body reads back: the counter, the whole seconds, each reading as far as it is physical or none at all, and
      the first eight characters of the identity's hash. */
  lemma BodyReadsBack(counter: nat, millis: nat, signal: Option<Signal>, hash: string)
    requires ' ' !in hash
    ensures var dbm := if signal.None? then 0 else signal.value.rssi; var snr := if signal.None? then 0 else signal.value.tenths;
      Read(Body(counter, millis, signal, hash))
      == Some(Report(Some(counter), Some(millis / 1000),
                     if signal.None? then Absent else At(if dbm < -200 then -200 else if dbm > 20 then 20 else dbm),
                     if signal.None? then Absent else At(if snr < -300 then -300 else if snr > 300 then 300 else snr),
                     Some(if |hash| > 8 then hash[..8] else hash)))
  {
    hide Words, Between, Dec, Digits, Value, Number, Whole, Tenths, SnrText, Signed;
    var rssi := if signal.Some? then RssiText(signal.value.rssi) else "?";
    var snr := if signal.Some? then SnrText(signal.value.tenths) else "?";
    var id := if |hash| > 8 then hash[..8] else hash;
    DecReads(counter);
    DecReads(millis / 1000);
    if signal.Some? {
      WholeReads(Clamp(signal.value.rssi, -200, 20));
      TenthsRead(signal.value.tenths);
    } else {
      Unknown();
    }
    BodyReads(Dec(counter), Dec(millis / 1000), rssi, snr, id);
  }

  lemma Unknown()
    ensures Whole(Some("?")) == Absent && Tenths(Some("?")) == Absent
  {
  }

  lemma BodyReads(counter: string, seconds: string, rssi: string, snr: string, id: string)
    requires ' ' !in counter && ' ' !in seconds && ' ' !in rssi && ' ' !in snr && ' ' !in id
    ensures Read("#" + counter + " up" + seconds + "s r" + rssi + " s" + snr + " id" + id)
         == Some(Report(Number(Some(counter)), Number(Some(seconds)), Whole(Some(rssi)), Tenths(Some(snr)), Some(id)))
  {
    hide Words, Between, Digits, Value, Number, Whole, Tenths;
    var a, b, c, d, e := "#" + counter, "up" + seconds + "s", "r" + rssi, "s" + snr, "id" + id;
    FiveWords(a, b, c, d, e);
    assert "#" + counter + " up" + seconds + "s r" + rssi + " s" + snr + " id" + id == a + " " + b + " " + c + " " + d + " " + e;
    BetweenReads("#", counter, "");
    BetweenReads("up", seconds, "s");
    BetweenReads("r", rssi, "");
    BetweenReads("s", snr, "");
    BetweenReads("id", id, "");
  }

  /** The radio's last reading, the send counter and the clock, as build_diag_body finds them. */
  method BuildDiagBody(counter: nat, millis: nat, signal: Option<Signal>, hash: string, size: nat)
    returns (out: string, n: nat)
    requires counter < U32 && millis < U32 && size >= 1
    ensures n == |Body(counter, millis, signal, hash)| <= 46
    ensures out == Fit(Body(counter, millis, signal, hash), size)
  {
    hide Dec;
    var rssiBuf, snrBuf := "?", "?";
    if signal.Some? {
      var r := signal.value.rssi;
      if r < -200 { r := -200; } else if r > 20 { r := 20; }
      rssiBuf := Fit(Signed(r), RSSI_BUF);
      var tenths := signal.value.tenths;
      if tenths < -300 { tenths := -300; } else if tenths > 300 { tenths := 300; }
      var mag := if tenths < 0 then -tenths else tenths;
      snrBuf := Fit((if tenths < 0 then "-" else "+") + Dec(mag / 10) + "." + Dec(mag % 10), SNR_BUF);
      ReadingsNeverTruncate(signal.value.rssi, signal.value.tenths);
    }
    var id := hash;
    if |id| > 8 {
      id := id[..8];
    }
    var text := "#" + Dec(counter) + " up" + Dec(millis / 1000) + "s r" + rssiBuf + " s" + snrBuf + " id" + id;
    BodyFitsOnePacket(counter, millis, signal, hash);
    return Fit(text, size), |text|;
  }
}
