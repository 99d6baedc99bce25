// The split-frame protocol: a packet of up to 508 bytes travels in one frame or two.
module SplitFrames {
  import opened Wrappers

  const MAX_PAYLOAD := 254
  const MAX_PACKET := 508
  const SEQUENCES := 8

  /** A frame as the receiver reads it: the header's flag and sequence number, and what follows. The
      payload is a sequence of anything, so that what holds of bytes holds of labelled bytes too. */
  datatype Frame<T> = Frame(split: bool, number: nat, payload: seq<T>)

  /** The one-slot reassembler, and what it has delivered. */
  datatype Rx<T> = Rx(pending: Option<nat>, buffer: seq<T>, delivered: seq<seq<T>>)

  function Receive<T>(rx: Rx<T>, f: Frame<T>): Rx<T> {
    if f.payload == [] then rx
    else if !f.split then Rx(None, f.payload, rx.delivered + [f.payload])
    else if rx.pending != Some(f.number) then Rx(Some(f.number), f.payload, rx.delivered)
    else Rx(None, rx.buffer + f.payload, rx.delivered + [rx.buffer + f.payload])
  }

  predicate Splits<T>(p: seq<T>) {
    |p| > MAX_PAYLOAD
  }

  /** Which of a packet's frames arrive; an unsplit packet has only a first. */
  datatype Fate = Fate(first: bool, second: bool)

  predicate Heard<T>(p: seq<T>, fate: Fate) {
    fate.first || (Splits(p) && fate.second)
  }

  predicate Intact<T>(p: seq<T>, fate: Fate) {
    fate.first && (Splits(p) ==> fate.second)
  }

  function First<T>(p: seq<T>, sent: nat): Frame<T> {
    if Splits(p) then Frame(true, sent % SEQUENCES, p[..MAX_PAYLOAD]) else Frame(false, 0, p)
  }

  function Second<T>(p: seq<T>, sent: nat): Frame<T>
    requires Splits(p)
  {
    Frame(true, sent % SEQUENCES, p[MAX_PAYLOAD..])
  }

  /** The receiver after whichever of the packet's frames got through. */
  function Hear<T>(rx: Rx<T>, p: seq<T>, fate: Fate, sent: nat): Rx<T> {
    var rx1 := if fate.first then Receive(rx, First(p, sent)) else rx;
    if Splits(p) && fate.second then Receive(rx1, Second(p, sent)) else rx1
  }

  // ---- Runs -----------------------------------------------------------

  predicate Traffic<T>(ps: seq<seq<T>>, fates: seq<Fate>) {
    |ps| == |fates| && forall i :: 0 <= i < |ps| ==> 1 <= |ps[i]| <= 508
  }

  /** How many of the first n packets were split: the sender's counter. */
  function Sent<T>(ps: seq<seq<T>>, n: nat): nat
    requires n <= |ps|
  {
    if n == 0 then 0 else Sent(ps, n - 1) + if Splits(ps[n - 1]) then 1 else 0
  }

  function After<T>(ps: seq<seq<T>>, fates: seq<Fate>, n: nat): Rx<T>
    requires n <= |ps| == |fates|
  {
    if n == 0 then Rx(None, [], []) else Hear(After(ps, fates, n - 1), ps[n - 1], fates[n - 1], Sent(ps, n - 1))
  }

  /** The packets all of whose frames arrived, in order. */
  function Arrived<T>(ps: seq<seq<T>>, fates: seq<Fate>, n: nat): seq<seq<T>>
    requires n <= |ps| == |fates|
  {
    if n == 0 then []
    else Arrived(ps, fates, n - 1) + if Intact(ps[n - 1], fates[n - 1]) then [ps[n - 1]] else []
  }

  /** Packets i and j are heard one after the other, nothing between them getting through. */
  predicate Consecutive<T>(ps: seq<seq<T>>, fates: seq<Fate>, i: nat, j: nat)
    requires i < j < |ps| == |fates|
  {
    Heard(ps[i], fates[i]) && Heard(ps[j], fates[j]) && forall k :: i < k < j ==> !Heard(ps[k], fates[k])
  }

  /** A half-heard packet followed, with nothing heard between, by a split packet of the same number. */
  predicate Alias<T>(ps: seq<seq<T>>, fates: seq<Fate>, i: nat, j: nat)
    requires i < j < |ps| == |fates|
  {
    Consecutive(ps, fates, i, j) && !Intact(ps[i], fates[i]) && Splits(ps[j])
    && (Sent(ps, j) - Sent(ps, i)) % SEQUENCES == 0
  }

  predicate NoAlias<T>(ps: seq<seq<T>>, fates: seq<Fate>, n: nat)
    requires n <= |ps| == |fates|
  {
    forall i, j :: 0 <= i < j < n ==> !Alias(ps, fates, i, j)
  }

  // ---- Invariant ------------------------------------------------------

  /** The packet heard last, if any. */
  function LastHeard<T>(ps: seq<seq<T>>, fates: seq<Fate>, n: nat): (r: Option<nat>)
    requires n <= |ps| == |fates|
    ensures r.Some? ==> r.value < n && Heard(ps[r.value], fates[r.value])
    ensures r.Some? ==> forall k :: r.value < k < n ==> !Heard(ps[k], fates[k])
    ensures r.None? ==> forall k :: 0 <= k < n ==> !Heard(ps[k], fates[k])
  {
    if n == 0 then None
    else if Heard(ps[n - 1], fates[n - 1]) then Some(n - 1)
    else LastHeard(ps, fates, n - 1)
  }

  /** The slot holds the number of the packet heard last when only half of it came, and is free
      otherwise; its bytes are that packet's. */
  ghost predicate SlotIsLast<T(!new)>(ps: seq<seq<T>>, fates: seq<Fate>, n: nat, rx: Rx<T>)
    requires n <= |ps| == |fates|
  {
    match LastHeard(ps, fates, n)
    case None => rx.pending == None
    case Some(i) =>
      if Intact(ps[i], fates[i]) then rx.pending == None
      else rx.pending == Some(Sent(ps, i) % SEQUENCES) && rx.buffer != [] && forall x :: x in rx.buffer ==> x in ps[i]
  }

  // From a slot that cannot be mistaken for this packet's, hearing it is right.
  lemma HearFresh<T(!new)>(rx: Rx<T>, p: seq<T>, fate: Fate, sent: nat)
    requires 1 <= |p| <= MAX_PACKET && (Splits(p) ==> rx.pending != Some(sent % SEQUENCES))
    ensures var h := Hear(rx, p, fate, sent);
      && h.delivered == rx.delivered + (if Intact(p, fate) then [p] else [])
      && (!Heard(p, fate) ==> h == rx)
      && (Heard(p, fate) ==>
            if Intact(p, fate) then h.pending == None
            else h.pending == Some(sent % SEQUENCES) && h.buffer != [] && forall x :: x in h.buffer ==> x in p)
  {
    if Splits(p) {
      assert p == p[..MAX_PAYLOAD] + p[MAX_PAYLOAD..];
    }
  }

  lemma {:induction false} SentGrows<T>(ps: seq<seq<T>>, i: nat, j: nat)
    requires i <= j <= |ps|
    ensures Sent(ps, i) <= Sent(ps, j) <= Sent(ps, i) + (j - i)
    decreases j
  {
    if i < j {
      SentGrows(ps, i, j - 1);
    }
  }

  lemma SameNumber(a: nat, b: nat)
    requires a <= b
    ensures a % SEQUENCES == b % SEQUENCES <==> (b - a) % SEQUENCES == 0
  {
  }

  // What stands in the slot when a packet comes is its own number exactly when the two alias.
  lemma SlotClashes<T(!new)>(ps: seq<seq<T>>, fates: seq<Fate>, n: nat, rx: Rx<T>)
    requires Traffic(ps, fates) && n < |ps| && SlotIsLast(ps, fates, n, rx)
    requires Heard(ps[n], fates[n]) && Splits(ps[n])
    ensures rx.pending == Some(Sent(ps, n) % SEQUENCES) <==>
      LastHeard(ps, fates, n).Some? && Alias(ps, fates, LastHeard(ps, fates, n).value, n)
  {
    match LastHeard(ps, fates, n)
    case None =>
    case Some(i) =>
      SentGrows(ps, i, n);
      SameNumber(Sent(ps, i), Sent(ps, n));
  }

  /** On a channel that drops frames but keeps their order: as long as no half-heard packet is followed by
      one of its own number, what is delivered is exactly the packets that arrived whole, in order and
      unaltered. */
  lemma {:induction false} DeliversWhatArrived<T(!new)>(ps: seq<seq<T>>, fates: seq<Fate>, n: nat)
    requires Traffic(ps, fates) && n <= |ps| && NoAlias(ps, fates, n)
    ensures After(ps, fates, n).delivered == Arrived(ps, fates, n)
    ensures SlotIsLast(ps, fates, n, After(ps, fates, n))
    decreases n
  {
    if n > 0 {
      var rx := After(ps, fates, n - 1);
      DeliversWhatArrived(ps, fates, n - 1);
      if Heard(ps[n - 1], fates[n - 1]) {
        if Splits(ps[n - 1]) {
          SlotClashes(ps, fates, n - 1, rx);
        }
        HearFresh(rx, ps[n - 1], fates[n - 1], Sent(ps, n - 1));
      }
    }
  }

  /** Consecutive frames fewer than eight split packets apart never alias. */
  lemma CloseNeverAliases<T>(ps: seq<seq<T>>, fates: seq<Fate>, n: nat)
    requires Traffic(ps, fates) && n <= |ps|
    requires forall i, j :: 0 <= i < j < n && Consecutive(ps, fates, i, j) && Splits(ps[j]) ==> Sent(ps, j) - Sent(ps, i) < SEQUENCES
    ensures NoAlias(ps, fates, n)
  {
    forall i, j | 0 <= i < j < n && Consecutive(ps, fates, i, j) && !Intact(ps[i], fates[i]) && Splits(ps[j])
      ensures (Sent(ps, j) - Sent(ps, i)) % SEQUENCES != 0
    {
      SentGrows(ps, i + 1, j);
    }
  }

  // ---- Tightness ------------------------------------------------------

  /** No value occurs in two packets: what was delivered tells where it came from. */
  ghost predicate Labelled<T(!new)>(ps: seq<seq<T>>) {
    forall i, j, x :: 0 <= i < |ps| && 0 <= j < |ps| && x in ps[i] && x in ps[j] ==> i == j
  }

  lemma {:induction false} DeliveredStays<T>(ps: seq<seq<T>>, fates: seq<Fate>, m: nat, n: nat, d: seq<T>)
    requires m <= n <= |ps| == |fates| && d in After(ps, fates, m).delivered
    ensures d in After(ps, fates, n).delivered
    decreases n
  {
    if m < n {
      DeliveredStays(ps, fates, m, n - 1, d);
    }
  }

  // An alias glues the end of one packet's bytes to another's.
  lemma HearAliased<T(!new)>(ps: seq<seq<T>>, fates: seq<Fate>, i: nat, j: nat) returns (d: seq<T>)
    requires Traffic(ps, fates) && i < j < |ps| && NoAlias(ps, fates, j) && Alias(ps, fates, i, j)
    ensures d in After(ps, fates, j + 1).delivered
    ensures exists x, y :: x in d && y in d && x in ps[i] && y in ps[j]
  {
    var rx := After(ps, fates, j);
    DeliversWhatArrived(ps, fates, j);
    assert LastHeard(ps, fates, j) == Some(i);
    SlotClashes(ps, fates, j, rx);
    var f := if fates[j].first then First(ps[j], Sent(ps, j)) else Second(ps[j], Sent(ps, j));
    d := rx.buffer + f.payload;
    assert Receive(rx, f).delivered == rx.delivered + [d];
    assert rx.buffer[0] in d && f.payload[0] in d && f.payload[0] in ps[j];
  }

  lemma {:induction false} FirstAlias<T>(ps: seq<seq<T>>, fates: seq<Fate>, n: nat) returns (i: nat, j: nat)
    requires n <= |ps| == |fates| && !NoAlias(ps, fates, n)
    ensures i < j < n && Alias(ps, fates, i, j) && NoAlias(ps, fates, j)
    decreases n
  {
    if !NoAlias(ps, fates, n - 1) {
      i, j := FirstAlias(ps, fates, n - 1);
    } else {
      j := n - 1;
      i :| 0 <= i < j && Alias(ps, fates, i, j);
    }
  }

  /** The condition is exact: with labelled packets, every delivery is a packet that was sent if and only
      if nothing aliases. */
  lemma PureIffNoAlias<T(!new)>(ps: seq<seq<T>>, fates: seq<Fate>)
    requires Traffic(ps, fates) && Labelled(ps)
    ensures (forall d :: d in After(ps, fates, |ps|).delivered ==> d in ps) <==> NoAlias(ps, fates, |ps|)
  {
    if NoAlias(ps, fates, |ps|) {
      DeliversWhatArrived(ps, fates, |ps|);
      ArrivedWereSent(ps, fates, |ps|);
    } else {
      var i, j := FirstAlias(ps, fates, |ps|);
      var d := HearAliased(ps, fates, i, j);
      DeliveredStays(ps, fates, j + 1, |ps|, d);
      assert d !in ps;
    }
  }

  lemma {:induction false} ArrivedWereSent<T>(ps: seq<seq<T>>, fates: seq<Fate>, n: nat)
    requires n <= |ps| == |fates|
    ensures forall d :: d in Arrived(ps, fates, n) ==> d in ps
    decreases n
  {
    if n > 0 {
      ArrivedWereSent(ps, fates, n - 1);
    }
  }

  /** The bound of eight is tight: lose the second half of one split packet and all of the next seven,
      and the eighth's first half completes it. */
  lemma GapOfEightAliases<T>(ps: seq<seq<T>>, fates: seq<Fate>)
    requires |ps| == |fates| == 9 && (forall i :: 0 <= i < 9 ==> Splits(ps[i]))
    requires fates[0] == Fate(true, false) && fates[8].first && forall i :: 1 <= i < 8 ==> !fates[i].first && !fates[i].second
    ensures Alias(ps, fates, 0, 8) && Sent(ps, 8) - Sent(ps, 0) == SEQUENCES
  {
    assert Sent(ps, 1) == 1 && Sent(ps, 2) == 2 && Sent(ps, 3) == 3 && Sent(ps, 4) == 4;
    assert Sent(ps, 5) == 5 && Sent(ps, 6) == 6 && Sent(ps, 7) == 7;
  }
}
