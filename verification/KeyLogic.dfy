// The keyboard's logic layer: held keys, one-shot modifiers and the ghost guard.
module KeyLogic {
  const KEY_NONE := 0
  const KEY_SHIFT := 1
  const KEY_ALT := 2
  const KEY_SYM := 3
  const GHOST_THRESHOLD := 3
  const MAX_TRACKED := 8

  const MOD_NONE: bv8 := 0
  const MOD_SHIFT: bv8 := 1
  const MOD_ALT: bv8 := 2
  const MOD_SYM: bv8 := 4

  type Code = n: nat | n < 256

  function ModBit(code: Code): bv8 {
    if code == KEY_SHIFT then MOD_SHIFT
    else if code == KEY_ALT then MOD_ALT
    else if code == KEY_SYM then MOD_SYM
    else MOD_NONE
  }

  function Wrap32(n: nat): nat {
    n % 0x1_0000_0000
  }

  datatype Keymap = Keymap(at: (Code, bv8) -> nat)

  datatype Event = Silent | Char(ch: nat, code: Code, mods: bv8) | Action(code: Code, mods: bv8) | Refused(code: Code)

  datatype Keys = Keys(down: seq<Code>, pending: bv8, refused: nat)

  datatype Input = Down(code: Code) | Up(code: Code) | Reset

  // ---- One step -------------------------------------------------------

  /** A key already down is the scanner repeating itself; past eight the array is full. */
  function Tracked(down: seq<Code>, code: Code): seq<Code> {
    if code in down || |down| >= MAX_TRACKED then down else down + [code]
  }

  function Without(down: seq<Code>, code: Code): seq<Code> {
    if down == [] then []
    else if down[0] == code then down[1..]
    else [down[0]] + Without(down[1..], code)
  }

  function Toggled(pending: bv8, bit: bv8): bv8 {
    if pending & bit != 0 then pending & !bit else pending | bit
  }

  function Emitted(km: Keymap, code: Code, mods: bv8): Event {
    if km.at(code, mods) != 0 then Char(km.at(code, mods), code, mods) else Action(code, mods)
  }

  function Pressed(km: Keymap, k: Keys, code: Code): (Keys, Event) {
    if code == KEY_NONE || code in k.down then (k, Silent)
    else
      var k1 := k.(down := Tracked(k.down, code));
      if |k1.down| >= GHOST_THRESHOLD then (k1.(refused := Wrap32(k1.refused + 1)), Refused(code))
      else Typed(km, k1, code)
  }

  /** A modifier arms or disarms; any other key takes what is armed. */
  function Typed(km: Keymap, k: Keys, code: Code): (Keys, Event) {
    if ModBit(code) != MOD_NONE then (k.(pending := Toggled(k.pending, ModBit(code))), Silent)
    else (k.(pending := MOD_NONE), Emitted(km, code, k.pending))
  }

  function Step(km: Keymap, k: Keys, i: Input): (Keys, Event) {
    match i
    case Down(code) => Pressed(km, k, code)
    case Up(code) => (k.(down := Without(k.down, code)), Silent)
    case Reset => (k.(down := [], pending := MOD_NONE), Silent)
  }

  /** The layer after a history of inputs, from power-up. */
  function After(km: Keymap, h: seq<Input>): Keys
    decreases |h|
  {
    if h == [] then Keys([], MOD_NONE, 0) else Step(km, After(km, h[..|h| - 1]), h[|h| - 1]).0
  }

  /** What the last input of a history produced. */
  function LastEvent(km: Keymap, h: seq<Input>): Event
    requires h != []
  {
    Step(km, After(km, h[..|h| - 1]), h[|h| - 1]).1
  }

  // ---- The same, told from the history alone --------------------------

  function KnownNext(before: set<Code>, i: Input): set<Code> {
    match i
    case Down(code) => if code == 0 || |before + {code}| > 8 then before else before + {code}
    case Up(code) => before - {code}
    case Reset => {}
  }

  function HeldNext(before: set<Code>, i: Input): set<Code> {
    match i
    case Down(code) => if code == 0 then before else before + {code}
    case Up(code) => before - {code}
    case Reset => {}
  }

  /** The keys physically held since the last reset. */
  function Held(h: seq<Input>): set<Code>
    decreases |h|
  {
    if h == [] then {}
    else
      HeldNext(Held(h[..|h| - 1]), h[|h| - 1])
  }

  /** Those of them that eight places know of: a key that goes down when all are taken is not taken in. */
  function Known(h: seq<Input>): set<Code>
    decreases |h|
  {
    if h == [] then {}
    else
      KnownNext(Known(h[..|h| - 1]), h[|h| - 1])
  }

  /** Input i is a press of a key not known to be held. */
  predicate Fresh(h: seq<Input>, i: nat)
    requires i < |h|
  {
    h[i].Down? && h[i].code != 0 && h[i].code !in Known(h[..i])
  }

  predicate Crowded(h: seq<Input>, i: nat)
    requires i < |h|
  {
    Fresh(h, i) && |Known(h[..i + 1])| >= 3
  }

  /** A fresh press leaving at most two keys known to be held. */
  predicate Accepted(h: seq<Input>, i: nat)
    requires i < |h|
  {
    Fresh(h, i) && |Known(h[..i + 1])| <= 2
  }

  /** Key `key` is accepted. */
  predicate Takes(h: seq<Input>, i: nat, key: Code)
    requires i < |h|
  {
    Accepted(h, i) && h[i].code == key
  }

  /** Keys 1, 2 and 3 are the modifiers. */
  predicate Ordinary(code: Code) {
    code == 0 || code > 3
  }

  predicate Types(h: seq<Input>, i: nat)
    requires i < |h|
  {
    Accepted(h, i) && Ordinary(h[i].code)
  }

  /** An ordinary key accepted, or a reset: either spends whatever is armed. */
  predicate Spends(h: seq<Input>, i: nat)
    requires i < |h|
  {
    h[i].Reset? || Types(h, i)
  }

  function CrowdedBelow(h: seq<Input>, n: nat): nat
    requires n <= |h|
  {
    if n == 0 then 0 else CrowdedBelow(h, n - 1) + if Crowded(h, n - 1) then 1 else 0
  }

  /** Where the stretch since the last spending input starts. */
  function Since(h: seq<Input>, n: nat): (m: nat)
    requires n <= |h|
    ensures m <= n && forall i :: m <= i < n ==> !Spends(h, i)
    ensures m > 0 ==> Spends(h, m - 1)
  {
    if n == 0 || Spends(h, n - 1) then n else Since(h, n - 1)
  }

  /** How often key `key` was accepted. */
  function Taken(h: seq<Input>, from: nat, n: nat, key: Code): nat
    requires from <= n <= |h|
    decreases n
  {
    if n == from then 0 else Taken(h, from, n - 1, key) + if Takes(h, n - 1, key) then 1 else 0
  }

  /** An odd number of times since anything armed was last spent. */
  predicate Armed(h: seq<Input>, n: nat, key: Code)
    requires n <= |h|
  {
    Taken(h, Since(h, n), n, key) % 2 == 1
  }

  predicate NeverOverEight(h: seq<Input>) {
    forall n :: 0 <= n <= |h| ==> |Held(h[..n])| <= 8
  }

  // ---- Tracking -------------------------------------------------------

  predicate Distinct(s: seq<Code>) {
    forall i, j :: 0 <= i < j < |s| ==> s[i] != s[j]
  }

  function Elements(s: seq<Code>): set<Code> {
    set c | c in s
  }

  lemma {:induction false} DistinctCounts(s: seq<Code>)
    requires Distinct(s)
    ensures |Elements(s)| == |s|
  {
    if s != [] {
      DistinctCounts(s[1..]);
      assert Elements(s) == {s[0]} + Elements(s[1..]);
      assert s[0] !in s[1..];
    } else {
      assert Elements(s) == {};
    }
  }

  lemma {:induction false} WithoutRemoves(s: seq<Code>, code: Code)
    requires Distinct(s)
    ensures Distinct(Without(s, code)) && Elements(Without(s, code)) == Elements(s) - {code}
    ensures forall c :: c in Without(s, code) ==> c in s
    ensures |Without(s, code)| <= |s|
  {
    if s != [] && s[0] != code {
      WithoutRemoves(s[1..], code);
      assert Elements(s) == {s[0]} + Elements(s[1..]);
      assert Elements(Without(s, code)) == {s[0]} + Elements(Without(s[1..], code));
    } else if s != [] {
      assert Elements(s) == {code} + Elements(s[1..]);
      assert code !in s[1..];
    }
  }

  /** The array never holds a key twice and never more than eight, whatever happens. */
  lemma {:induction false} TrackedIsDistinct(km: Keymap, h: seq<Input>)
    ensures Distinct(After(km, h).down) && |After(km, h).down| <= 8
    decreases |h|
  {
    if h != [] {
      TrackedIsDistinct(km, h[..|h| - 1]);
      if h[|h| - 1].Up? {
        WithoutRemoves(After(km, h[..|h| - 1]).down, h[|h| - 1].code);
      }
    }
  }

  lemma PrefixOfPrefix(h: seq<Input>, n: nat, m: nat)
    requires m <= n <= |h|
    ensures h[..n][..m] == h[..m]
  {
  }

  lemma PressTracks(km: Keymap, k: Keys, code: Code)
    ensures Pressed(km, k, code).0.down == if code == KEY_NONE then k.down else Tracked(k.down, code)
  {
    hide Toggled, Emitted;
  }

  lemma TrackStep(down: seq<Code>, known: set<Code>, code: Code)
    requires Elements(down) == known && Distinct(down) && |down| <= MAX_TRACKED
    ensures Elements(Tracked(down, code)) == if |known + {code}| > MAX_TRACKED then known else known + {code}
    ensures code in down <==> code in known
  {
    DistinctCounts(down);
    assert code in down <==> code in Elements(down);
    if code in down {
      assert known + {code} == known;
    } else {
      assert |known + {code}| == |known| + 1;
      assert Elements(down + [code]) == Elements(down) + {code};
    }
  }

  /** The tracked array is the keys known to be held, whatever happens. */
  lemma {:induction false} TrackedIsKnown(km: Keymap, h: seq<Input>)
    ensures Elements(After(km, h).down) == Known(h) && |After(km, h).down| == |Known(h)| <= 8
    decreases |h|
  {
    hide Tracked, Without, Pressed;
    TrackedIsDistinct(km, h);
    DistinctCounts(After(km, h).down);
    if h != [] {
      var k := After(km, h[..|h| - 1]);
      TrackedIsKnown(km, h[..|h| - 1]);
      TrackedIsDistinct(km, h[..|h| - 1]);
      match h[|h| - 1]
      case Up(code) => WithoutRemoves(k.down, code);
      case Reset =>
      case Down(code) =>
        PressTracks(km, k, code);
        if code != KEY_NONE {
          TrackStep(k.down, Known(h[..|h| - 1]), code);
        }
    }
  }

  /** While at most eight keys are held at a time, all of them are known. */
  lemma {:induction false} KnownIsHeld(h: seq<Input>)
    requires NeverOverEight(h)
    ensures Known(h) == Held(h)
    decreases |h|
  {
    if h != [] {
      PrefixEight(h, |h| - 1);
      KnownIsHeld(h[..|h| - 1]);
      assert h[..|h|] == h;
    }
  }

  /** And only then: the moment a ninth key goes down the array cannot be the held set. */
  lemma TrackedIsHeldIff(km: Keymap, h: seq<Input>)
    ensures NeverOverEight(h) <==> forall n :: 0 <= n <= |h| ==> Elements(After(km, h[..n]).down) == Held(h[..n])
  {
    forall n | 0 <= n <= |h|
      ensures NeverOverEight(h) ==> Elements(After(km, h[..n]).down) == Held(h[..n])
      ensures |Held(h[..n])| > MAX_TRACKED ==> Elements(After(km, h[..n]).down) != Held(h[..n])
    {
      TrackedIsKnown(km, h[..n]);
      if NeverOverEight(h) {
        PrefixEight(h, n);
        KnownIsHeld(h[..n]);
      }
    }
  }

  lemma PrefixEight(h: seq<Input>, n: nat)
    requires NeverOverEight(h) && n <= |h|
    ensures NeverOverEight(h[..n])
  {
    forall m | 0 <= m <= n
      ensures |Held(h[..n][..m])| <= MAX_TRACKED
    {
      PrefixOfPrefix(h, n, m);
    }
  }

  // ---- The counter and the modifiers ----------------------------------

  /** The bit each modifier key has in the mask. */
  predicate BitOf(key: Code, bit: bv8) {
    (key == 1 && bit == 1) || (key == 2 && bit == 2) || (key == 3 && bit == 4)
  }

  lemma ToggleFlips(pending: bv8, code: Code, key: Code, bit: bv8)
    requires BitOf(key, bit) && 1 <= code <= 3
    ensures (Toggled(pending, ModBit(code)) & bit != 0) == if code == key then pending & bit == 0 else pending & bit != 0
  {
  }

  lemma ToggleStaysLow(pending: bv8, code: Code)
    requires pending & 0xF8 == 0 && 1 <= code <= 3
    ensures Toggled(pending, ModBit(code)) & 0xF8 == 0
  {
  }

  lemma ModifierKeys(code: Code)
    ensures ModBit(code) == MOD_NONE <==> Ordinary(code)
  {
  }

  /** Past its first input, a history's counts are those of its prefix. */
  lemma {:induction false} PrefixCounts(h: seq<Input>, n: nat, m: nat)
    requires n <= m <= |h|
    ensures CrowdedBelow(h[..m], n) == CrowdedBelow(h, n)
    ensures Since(h[..m], n) == Since(h, n)
    decreases n
  {
    if n > 0 {
      PrefixAt(h, n - 1, m);
      PrefixCounts(h, n - 1, m);
    }
  }

  lemma PrefixAt(h: seq<Input>, i: nat, m: nat)
    requires i < m <= |h|
    ensures Crowded(h[..m], i) == Crowded(h, i) && Spends(h[..m], i) == Spends(h, i)
    ensures forall key :: Takes(h[..m], i, key) == Takes(h, i, key)
  {
    PrefixOfPrefix(h, m, i);
    PrefixOfPrefix(h, m, i + 1);
  }

  lemma {:induction false} PrefixTaken(h: seq<Input>, from: nat, n: nat, m: nat, key: Code)
    requires from <= n <= m <= |h|
    ensures Taken(h[..m], from, n, key) == Taken(h, from, n, key)
    decreases n
  {
    if n > from {
      PrefixAt(h, n - 1, m);
      PrefixTaken(h, from, n - 1, m, key);
    }
  }

  lemma LastFresh(km: Keymap, h: seq<Input>)
    requires h != []
    ensures var n := |h| - 1; var k := After(km, h[..n]);
      && (Fresh(h, n) <==> h[n].Down? && h[n].code != KEY_NONE && h[n].code !in k.down)
      && (Fresh(h, n) ==> |Tracked(k.down, h[n].code)| == |Known(h[..n + 1])|)
  {
    hide After, Without, Known;
    var n := |h| - 1;
    TrackedIsKnown(km, h[..n]);
    TrackedIsDistinct(km, h[..n]);
    assert h[..n + 1] == h;
    assert forall c :: c in Elements(After(km, h[..n]).down) <==> c in After(km, h[..n]).down;
    if Fresh(h, n) {
      TrackedSize(After(km, h[..n]).down, Known(h[..n]), h[n].code);
      KnownStep(h);
    }
  }

  lemma KnownStep(h: seq<Input>)
    requires h != [] && h[|h| - 1].Down? && h[|h| - 1].code != KEY_NONE
    ensures var before := Known(h[..|h| - 1]); var all := before + {h[|h| - 1].code};
      Known(h) == if |all| > MAX_TRACKED then before else all
  {
  }

  lemma TrackedSize(down: seq<Code>, known: set<Code>, code: Code)
    requires Elements(down) == known && Distinct(down) && |down| <= MAX_TRACKED && code !in down
    ensures |Tracked(down, code)| == |if |known + {code}| > MAX_TRACKED then known else known + {code}|
  {
    DistinctCounts(down);
    assert code !in Elements(down);
    assert |known + {code}| == |known| + 1;
  }

  // What one input does, told from the history.
  lemma LastInput(km: Keymap, h: seq<Input>)
    requires h != []
    ensures var n := |h| - 1; var k := After(km, h[..n]);
      && After(km, h).refused == (if Crowded(h, n) then Wrap32(k.refused + 1) else k.refused)
      && After(km, h).pending == (if Spends(h, n) then MOD_NONE
                                  else if Accepted(h, n) then Toggled(k.pending, ModBit(h[n].code)) else k.pending)
      && LastEvent(km, h) == (if Crowded(h, n) then Refused(h[n].code)
                              else if Types(h, n) then Emitted(km, h[n].code, k.pending) else Silent)
  {
    hide Known, Without, Toggled, Emitted, Tracked, Fresh, ModBit, Wrap32, Ordinary;
    LastFresh(km, h);
    if h[|h| - 1].Down? {
      ModifierKeys(h[|h| - 1].code);
    }
  }

  /** The refused counter is the number of fresh presses that left three or more keys known to be held. */
  lemma {:induction false} RefusedCounts(km: Keymap, h: seq<Input>)
    ensures After(km, h).refused == CrowdedBelow(h, |h|) % 0x1_0000_0000
    decreases |h|
  {
    hide Step, Crowded, Spends, Since, Known, Fresh, KnownNext, Accepted, Types;
    if h != [] {
      RefusedCounts(km, h[..|h| - 1]);
      LastInput(km, h);
      PrefixCounts(h, |h| - 1, |h| - 1);
    }
  }

  lemma ModifierOrNot(h: seq<Input>, i: nat)
    requires i < |h|
    ensures Spends(h, i) ==> forall key: Code :: 1 <= key <= 3 ==> !Takes(h, i, key)
    ensures Accepted(h, i) && !Spends(h, i) ==> h[i].Down? && 1 <= h[i].code <= 3
  {
    hide Known;
  }

  lemma ArmedStep(h: seq<Input>, n: nat, key: Code)
    requires n < |h|
    ensures Armed(h, n + 1, key) == if Spends(h, n) then false else Armed(h, n, key) != Takes(h, n, key)
    ensures Armed(h[..n], n, key) == Armed(h, n, key)
  {
    hide Takes, Spends;
    PrefixCounts(h, n, n);
    PrefixTaken(h, Since(h, n), n, n, key);
  }

  lemma NothingArmed(h: seq<Input>, key: Code)
    ensures !Armed(h, 0, key)
  {
  }

  lemma {:induction false} BitIsParity(km: Keymap, h: seq<Input>, key: Code, bit: bv8)
    requires BitOf(key, bit)
    ensures (After(km, h).pending & bit != 0) <==> Armed(h, |h|, key)
    decreases |h|
  {
    hide Step, Fresh, ModBit, Toggled, Spends, Armed, Known, Held;
    NothingArmed(h, key);
    if h != [] {
      var n := |h| - 1;
      BitIsParity(km, h[..n], key, bit);
      LastInput(km, h);
      ArmedStep(h, n, key);
      ModifierOrNot(h, n);
      if !Spends(h, n) && Accepted(h, n) {
        ToggleFlips(After(km, h[..n]).pending, h[n].code, key, bit);
      }
    }
  }

  lemma {:induction false} NoOtherBit(km: Keymap, h: seq<Input>)
    ensures After(km, h).pending & 0xF8 == 0
    decreases |h|
  {
    hide Step, Fresh, ModBit, Toggled, Spends, Armed, Known, Held;
    if h != [] {
      NoOtherBit(km, h[..|h| - 1]);
      LastInput(km, h);
      ModifierOrNot(h, |h| - 1);
      if !Spends(h, |h| - 1) && Accepted(h, |h| - 1) {
        ToggleStaysLow(After(km, h[..|h| - 1]).pending, h[|h| - 1].code);
      }
    }
  }

  /** By key code: a bit of the mask is up exactly when its key, 1, 2 or 3, was accepted an odd number of times
      since anything armed was last spent, and no other key ever puts one up. */
  lemma PendingIsParity(km: Keymap, h: seq<Input>)
    ensures (After(km, h).pending & 1 != 0) <==> Armed(h, |h|, 1)
    ensures (After(km, h).pending & 2 != 0) <==> Armed(h, |h|, 2)
    ensures (After(km, h).pending & 4 != 0) <==> Armed(h, |h|, 3)
    ensures After(km, h).pending & 0xF8 == 0
  {
    hide After, Armed;
    BitIsParity(km, h, 1, 1);
    BitIsParity(km, h, 2, 2);
    BitIsParity(km, h, 3, 4);
    NoOtherBit(km, h);
  }

  lemma PrefixArmed(h: seq<Input>, key: Code)
    requires h != []
    ensures Armed(h[..|h| - 1], |h| - 1, key) == Armed(h, |h| - 1, key)
  {
    hide Takes, Spends;
    PrefixCounts(h, |h| - 1, |h| - 1);
    PrefixTaken(h, Since(h, |h| - 1), |h| - 1, |h| - 1, key);
  }

  /** The mask has the bits of the keys armed after n inputs, by key code, and no other. */
  predicate Carries(h: seq<Input>, n: nat, mods: bv8)
    requires n <= |h|
  {
    && (mods & 1 != 0 <==> Armed(h, n, 1))
    && (mods & 2 != 0 <==> Armed(h, n, 2))
    && (mods & 4 != 0 <==> Armed(h, n, 3))
    && mods & 0xF8 == 0
  }

  /** A character or action comes exactly from a fresh key other than 1, 2 and 3 that leaves at most two known
      to be held; it names that key, and carries the modifiers armed by then. */
  lemma EmitsIff(km: Keymap, h: seq<Input>)
    requires h != []
    ensures var e := LastEvent(km, h); (e.Char? || e.Action? <==> Types(h, |h| - 1)) && (e.Refused? <==> Crowded(h, |h| - 1))
    ensures var e := LastEvent(km, h); !e.Silent? ==> e.code == h[|h| - 1].code
    ensures var e := LastEvent(km, h); e.Char? || e.Action? ==> Carries(h, |h| - 1, e.mods)
    ensures var e := LastEvent(km, h); (e.Char? ==> e.ch == km.at(e.code, e.mods) != 0)
    ensures var e := LastEvent(km, h); (e.Action? ==> km.at(e.code, e.mods) == 0)
  {
    hide Armed, After, Known, Step, Fresh;
    var n := |h| - 1;
    LastInput(km, h);
    PendingIsParity(km, h[..n]);
    PrefixArmed(h, 1);
    PrefixArmed(h, 2);
    PrefixArmed(h, 3);
  }

  // ---- Past eight keys ------------------------------------------------

  /** n keys go down one after the other. */
  function Presses(n: nat): seq<Input>
    requires n <= 9
  {
    seq(n, i requires 0 <= i < n => Down(10 + i))
  }

  /** Nine keys go down and the first n of them come up. */
  function Releases(n: nat): seq<Input>
    requires n <= 8
  {
    if n == 0 then Presses(9) else Releases(n - 1) + [Up(9 + n)]
  }

  /** All but the ninth come up, so that only a key no place was left for is held; then two more go down. */
  function NineThenTwo(): seq<Input> {
    Releases(8) + [Down(20)] + [Down(21)]
  }

  function FirstKeys(n: nat): (keys: set<Code>)
    requires n <= 9
    ensures |keys| == n && forall c :: c in keys <==> 10 <= c < 10 + n
  {
    if n == 0 then {} else FirstKeys(n - 1) + {9 + n}
  }

  lemma {:induction false} EightKnown(n: nat)
    requires n <= 8
    ensures Known(Presses(n)) == Held(Presses(n)) == FirstKeys(n)
  {
    if n > 0 {
      hide Known, Held;
      EightKnown(n - 1);
      KnownSnoc(Presses(n - 1), Down(9 + n));
      assert Presses(n) == Presses(n - 1) + [Down(9 + n)];
    } else {
      assert Presses(0) == [];
    }
  }

  lemma KnownSnoc(h: seq<Input>, i: Input)
    ensures Known(h + [i]) == KnownNext(Known(h), i) && Held(h + [i]) == HeldNext(Held(h), i)
  {
    assert (h + [i])[..|h|] == h;
  }

  lemma NinePressed()
    ensures Known(Presses(9)) == FirstKeys(8) && Held(Presses(9)) == FirstKeys(8) + {18}
  {
    hide Known, Held, FirstKeys;
    EightKnown(8);
    KnownSnoc(Presses(8), Down(18));
    assert Presses(9) == Presses(8) + [Down(18)];
    assert |FirstKeys(8) + {18}| == 9;
  }

  lemma OneMoreKey(n: nat)
    requires 0 < n <= 8
    ensures FirstKeys(n) == FirstKeys(n - 1) + {9 + n}
  {
  }

  lemma {:induction false} ReleasedKnown(n: nat)
    requires n <= 8
    ensures Known(Releases(n)) == FirstKeys(8) - FirstKeys(n) && Held(Releases(n)) == (FirstKeys(8) + {18}) - FirstKeys(n)
  {
    hide Known, Held, FirstKeys, Presses;
    if n == 0 {
      NinePressed();
      assert FirstKeys(0) == {};
    } else {
      ReleasedKnown(n - 1);
      KnownSnoc(Releases(n - 1), Up(9 + n));
      OneMoreKey(n);
    }
  }

  lemma TwoMore(km: Keymap, a: seq<Input>)
    requires Known(a) == {} && Held(a) == {18}
    ensures var h := a + [Down(20)] + [Down(21)]; Held(h) == {18, 20, 21} && Types(h, |h| - 1)
  {
    hide Known, Held;
    var b := a + [Down(20)];
    KnownSnoc(a, Down(20));
    KnownSnoc(b, Down(21));
    var h := b + [Down(21)];
    assert Known(b) == {20} && Known(h) == {20, 21};
    assert h[..|h| - 1] == b && h[..|h|] == h;
  }

  /** The ghost guard counts the keys it knows: three keys are held now, and the last of them is typed. */
  lemma NinthKeyIsForgotten(km: Keymap)
    ensures var h := NineThenTwo();
      h != [] && |Held(h)| == 3 && (LastEvent(km, h).Char? || LastEvent(km, h).Action?)
  {
    hide Known, Held, Releases, LastEvent, FirstKeys, Armed, Since, Types;
    ReleasedKnown(8);
    TwoMore(km, Releases(8));
    EmitsIff(km, NineThenTwo());
  }
}
