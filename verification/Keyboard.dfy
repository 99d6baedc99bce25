// The held-key tracker as it is: an array shifted in place.
module Keyboard {
  import opened KeyLogic

  class InputLayer {
    const keymap: Keymap
    const down: array<Code>
    var downCount: nat
    var pending: bv8
    var refused: nat

    ghost predicate Valid()
      reads this
    {
      down.Length == MAX_TRACKED && downCount <= MAX_TRACKED
    }

    ghost function State(): Keys
      reads this, down
      requires Valid()
    {
      Keys(down[..downCount], pending, refused)
    }

    constructor (keymap: Keymap)
      ensures Valid() && fresh(down) && State() == After(keymap, []) && this.keymap == keymap
    {
      this.keymap := keymap;
      down := new Code[MAX_TRACKED](_ => KEY_NONE);
      downCount, pending, refused := 0, MOD_NONE, 0;
    }

    method TrackDown(code: Code) returns (isFresh: bool)
      requires Valid()
      modifies `downCount, down
      ensures Valid() && isFresh == (code !in old(State()).down)
      ensures State() == old(State()).(down := Tracked(old(State()).down, code))
      ensures !isFresh ==> State() == old(State())
    {
      var i := 0;
      while i < downCount
        invariant 0 <= i <= downCount && forall j :: 0 <= j < i ==> down[j] != code
      {
        if down[i] == code {
          return false;
        }
        i := i + 1;
      }
      if downCount < MAX_TRACKED {
        down[downCount] := code;
        downCount := downCount + 1;
      }
      return true;
    }

    method TrackUp(code: Code) returns (found: bool)
      requires Valid()
      modifies `downCount, down
      ensures Valid() && found == (code in old(State()).down)
      ensures State() == old(State()).(down := Without(old(State()).down, code))
    {
      ghost var was := down[..downCount];
      var i := 0;
      while i < downCount
        invariant 0 <= i <= downCount && down[..downCount] == was && forall j :: 0 <= j < i ==> was[j] != code
        invariant downCount == old(downCount)
      {
        if down[i] == code {
          CloseGap(i);
          WithoutAt(was, code, i);
          return true;
        }
        i := i + 1;
      }
      WithoutNone(was, code);
      return false;
    }

    method CloseGap(i: nat)
      requires Valid() && i < downCount
      modifies `downCount, down
      ensures Valid() && down[..downCount] == old(down[..downCount])[..i] + old(down[..downCount])[i + 1..]
    {
      ghost var was := down[..downCount];
      var j := i;
      while j + 1 < downCount
        invariant i <= j < downCount == |was| && downCount == old(downCount)
        invariant down[..j] == was[..i] + was[i + 1..j + 1]
        invariant down[j..downCount] == was[j..]
      {
        assert down[j + 1] == was[j + 1];
        down[j] := down[j + 1];
        j := j + 1;
      }
      downCount := downCount - 1;
    }

    /** A press. */
    method KeyDown(code: Code) returns (e: Event)
      requires Valid()
      modifies this, down
      ensures Valid() && (State(), e) == Step(keymap, old(State()), Down(code))
    {
      hide Tracked, Wrap32, Typed;
      if code == KEY_NONE {
        return Silent;
      }
      var isFresh := TrackDown(code);
      if !isFresh {
        return Silent;
      }
      if downCount >= GHOST_THRESHOLD {
        refused := Wrap32(refused + 1);
        return Refused(code);
      }
      e := Type(code);
    }

    method Type(code: Code) returns (e: Event)
      requires Valid()
      modifies `pending
      ensures Valid() && (State(), e) == Typed(keymap, old(State()), code)
    {
      hide ModBit, Toggled;
      var bit := ModBit(code);
      if bit != MOD_NONE {
        pending := Toggled(pending, bit);
        return Silent;
      }
      var applied := pending;
      pending := MOD_NONE;
      var ch := keymap.at(code, applied);
      return if ch != 0 then Char(ch, code, applied) else Action(code, applied);
    }

    /** A release; a modifier stays armed. */
    method KeyUp(code: Code)
      requires Valid()
      modifies this, down
      ensures Valid() && State() == Step(keymap, old(State()), Up(code)).0
    {
      var _ := TrackUp(code);
    }

    /** Forgets keys and modifiers; the refused counter is kept. */
    method ResetKeys()
      requires Valid()
      modifies this
      ensures Valid() && State() == Step(keymap, old(State()), Reset).0
    {
      pending, downCount := MOD_NONE, 0;
    }
  }

  lemma {:induction false} WithoutAt(s: seq<Code>, code: Code, i: nat)
    requires i < |s| && s[i] == code && forall j :: 0 <= j < i ==> s[j] != code
    ensures Without(s, code) == s[..i] + s[i + 1..]
    decreases i
  {
    if i > 0 {
      WithoutAt(s[1..], code, i - 1);
      assert s[..i] + s[i + 1..] == [s[0]] + (s[1..][..i - 1] + s[1..][i..]);
    }
  }

  lemma {:induction false} WithoutNone(s: seq<Code>, code: Code)
    requires code !in s
    ensures Without(s, code) == s
  {
    if s != [] {
      WithoutNone(s[1..], code);
    }
  }
}
