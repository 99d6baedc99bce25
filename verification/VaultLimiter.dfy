// The identity vault's attempt limiter, step by step, with the power cut anywhere between two file operations.
module VaultLimiter {
  import opened Wrappers

  const MAX_TRIES := 10

  /** A vault opens with the code it was sealed under; a damaged one with none. */
  datatype Vault = Sealed(code: string) | Damaged

  /** The two files, as they survive a reset. */
  datatype Flash = Flash(vault: Option<Vault>, tries: Option<seq<nat>>)

  /** The count the try file holds; a missing or empty file counts as none. */
  function Stored(f: Flash): nat {
    match f.tries
    case Some(bytes) => if bytes == [] then 0 else bytes[0]
    case None => 0
  }

  function Opens(f: Flash, code: string): bool {
    f.vault == Some(Sealed(code))
  }

  /** Where a boot stands, by the file operation it makes next; `Up` says whether it got an identity. */
  datatype At =
    | Off
    | Read(code: string)
    | Count(code: string, tried: nat)
    | Try(code: string, tried: nat)
    | Destroy
    | Forgive
    | Seal(code: string)
    | Up(identity: bool)

  /** Since the try file was last removed: `tested` counts the codes tested, `lost` the writes of the counter
      that never landed; `missed` says whether the last one did not. */
  datatype State = State(flash: Flash, at: At, tested: nat, lost: nat, missed: bool)

  /** Power arrives with some code built in; the boot makes its next file operation (`works`: the key it
      found is well formed, the sealing went through); the write of the counter is silently lost; the
      vault file is damaged; the power is cut. */
  datatype Step = Boot(code: string) | Advance(works: bool) | LoseWrite | Damage | Cut

  function Next(s: State, step: Step): State {
    match step
    case Cut => s.(at := Off)
    case Damage => if s.flash.vault.Some? then s.(flash := s.flash.(vault := Some(Damaged))) else s
    case Boot(code) => if s.at == Off then s.(at := if s.flash.vault.Some? then Read(code) else Seal(code)) else s
    case LoseWrite => if s.at.Count? then s.(at := Try(s.at.code, s.at.tried), lost := s.lost + 1, missed := true) else s
    case Advance(works) => Advanced(s, works)
  }

  function Advanced(s: State, works: bool): State {
    match s.at
    case Read(code) =>
      if Stored(s.flash) >= MAX_TRIES then s.(at := Up(false)) else s.(at := Count(code, Stored(s.flash)))
    case Count(code, tried) => s.(flash := s.flash.(tries := Some([tried + 1])), at := Try(code, tried), missed := false)
    case Try(code, tried) =>
      var s1 := s.(tested := s.tested + 1);
      if Opens(s.flash, code) then s1.(at := if works then Forgive else Up(false))
      else s1.(at := if MAX_TRIES - tried - 1 == 0 then Destroy else Up(false))
    case Destroy => s.(flash := s.flash.(vault := None), at := Up(false))
    case Forgive => State(s.flash.(tries := None), Up(true), 0, 0, false)
    case Seal(code) =>
      if works then s.(flash := s.flash.(vault := Some(Sealed(code))), at := Up(true)) else s.(at := Up(false))
    case Off => s
    case Up(_) => s
  }

  function Run(s: State, steps: seq<Step>): State
    decreases |steps|
  {
    if steps == [] then s else Run(Next(s, steps[0]), steps[1..])
  }

  function Blank(): State {
    State(Flash(None, None), Off, 0, 0, false)
  }

  // ---- The limit ------------------------------------------------------

  predicate Inv(s: State) {
    && s.tested <= Stored(s.flash) + s.lost && Stored(s.flash) <= MAX_TRIES
    && (s.at.Count? ==> s.at.tried == Stored(s.flash) < MAX_TRIES)
    && (s.at.Try? ==> s.at.tried + (if s.missed then 0 else 1) == Stored(s.flash) && s.tested < Stored(s.flash) + s.lost)
    && (s.at.Try? ==> s.at.tried < MAX_TRIES)
    && (s.at == Destroy ==> Stored(s.flash) == if s.missed then MAX_TRIES - 1 else MAX_TRIES)
  }

  lemma StepKeepsInv(s: State, step: Step)
    requires Inv(s)
    ensures Inv(Next(s, step))
  {
  }

  /** Over every run of boots, right and wrong codes, lost writes, damage and power cuts anywhere: the codes
      tested since the try file was last removed never outnumber the stored count and the writes lost, and
      the count never passes ten. */
  lemma {:induction false} TestedIsCounted(s: State, steps: seq<Step>)
    requires Inv(s)
    ensures var t := Run(s, steps); Inv(t) && t.tested <= Stored(t.flash) + t.lost && Stored(t.flash) <= 10
    decreases |steps|
  {
    assert s.tested <= Stored(s.flash) + s.lost && Stored(s.flash) <= MAX_TRIES;
    hide Inv, Next;
    if steps != [] {
      StepKeepsInv(s, steps[0]);
      TestedIsCounted(Next(s, steps[0]), steps[1..]);
    }
  }

  lemma {:induction false} NothingLost(s: State, steps: seq<Step>)
    requires LoseWrite !in steps && s.lost == 0 && !s.missed
    ensures Run(s, steps).lost == 0 && !Run(s, steps).missed
    decreases |steps|
  {
    if steps != [] {
      NothingLost(Next(s, steps[0]), steps[1..]);
    }
  }

  /** The vault is deleted with the stored count at ten, or at nine exactly when the write that should have
      made it ten was lost; where no write is lost, only at ten. */
  lemma DeletedOnlyAtTen(steps: seq<Step>, step: Step)
    requires Run(Blank(), steps).flash.vault.Some? && Next(Run(Blank(), steps), step).flash.vault.None?
    ensures var s := Run(Blank(), steps);
      Stored(s.flash) == (if s.missed then 9 else 10) && (LoseWrite !in steps ==> Stored(s.flash) == 10)
  {
    TestedIsCounted(Blank(), steps);
    if LoseWrite !in steps {
      NothingLost(Blank(), steps);
    }
  }

  function LostGuesses(code: string, n: nat): seq<Step> {
    if n == 0 then [] else [Boot(code), Advance(true), LoseWrite, Advance(true), Cut] + LostGuesses(code, n - 1)
  }

  /** The count rests on its write landing: nothing checks that it did, and each write that is lost is a
      free guess, as many as one likes. From a count that was exact the bound is attained. */
  lemma {:induction false} LostWritesAreFreeGuesses(s: State, code: string, n: nat)
    requires s.at == Off && s.flash.vault.Some? && !Opens(s.flash, code) && Stored(s.flash) < 9
    ensures Run(s, LostGuesses(code, n)) == s.(tested := s.tested + n, lost := s.lost + n, missed := s.missed || n > 0)
    ensures s.tested == Stored(s.flash) + s.lost ==>
      var t := Run(s, LostGuesses(code, n)); t.tested == Stored(t.flash) + t.lost
    decreases n
  {
    if n > 0 {
      var s1 := Next(s, Boot(code));
      var s2 := Next(s1, Advance(true));
      var s3 := Next(s2, LoseWrite);
      var s4 := Next(s3, Advance(true));
      var s5 := Next(s4, Cut);
      var rest := LostGuesses(code, n - 1);
      RunFive(s, Boot(code), Advance(true), LoseWrite, Advance(true), Cut);
      RunConcat(s, [Boot(code), Advance(true), LoseWrite, Advance(true), Cut], rest);
      assert s5 == s.(tested := s.tested + 1, lost := s.lost + 1, missed := true);
      LostWritesAreFreeGuesses(s5, code, n - 1);
    }
  }

  lemma {:induction false} RunConcat(s: State, a: seq<Step>, b: seq<Step>)
    ensures Run(s, a + b) == Run(Run(s, a), b)
    decreases |a|
  {
    hide Next;
    if a == [] {
      assert a + b == b;
    } else {
      assert (a + b)[0] == a[0] && (a + b)[1..] == a[1..] + b;
      RunConcat(Next(s, a[0]), a[1..], b);
    }
  }

  lemma RunFive(s: State, a: Step, b: Step, c: Step, d: Step, e: Step)
    ensures Run(s, [a, b, c, d, e]) == Next(Next(Next(Next(Next(s, a), b), c), d), e)
  {
    hide Next;
    var s1 := Next(s, a);
    var s2 := Next(s1, b);
    var s3 := Next(s2, c);
    var s4 := Next(s3, d);
    var s5 := Next(s4, e);
    assert Run(s5, []) == s5;
    assert Run(s4, [e]) == s5;
    assert Run(s3, [d, e]) == s5;
    assert Run(s2, [c, d, e]) == s5;
    assert Run(s1, [b, c, d, e]) == s5;
  }

  /** One lost write at the last attempt: the vault goes with nine stored. */
  lemma LostTenthDeletesAtNine(s: State, code: string)
    requires s.at == Off && s.flash.vault.Some? && !Opens(s.flash, code) && Stored(s.flash) == 9
    ensures var t := Run(s, [Boot(code), Advance(true), LoseWrite, Advance(true), Advance(true)]);
      t.flash.vault == None && Stored(t.flash) == 9
  {
    RunFive(s, Boot(code), Advance(true), LoseWrite, Advance(true), Advance(true));
  }

  // ---- One boot -------------------------------------------------------

  /** What an uninterrupted boot does to the flash, and whether it gets an identity. */
  function Booted(f: Flash, code: string, works: bool): (Flash, bool) {
    if f.vault.None? then (if works then f.(vault := Some(Sealed(code))) else f, works)
    else if Stored(f) >= MAX_TRIES then (f, false)
    else if Opens(f, code) then
      if works then (f.(tries := None), true) else (f.(tries := Some([Stored(f) + 1])), false)
    else if Stored(f) + 1 == MAX_TRIES then (Flash(None, Some([MAX_TRIES])), false)
    else (f.(tries := Some([Stored(f) + 1])), false)
  }

  function WholeBoot(code: string, works: bool): seq<Step> {
    [Boot(code), Advance(works), Advance(works), Advance(works), Advance(works)]
  }

  /** The steps of an uninterrupted boot add up to that. */
  lemma WholeBootIsBooted(s: State, code: string, works: bool)
    requires s.at == Off
    ensures var t := Run(s, WholeBoot(code, works)); var (f, identity) := Booted(s.flash, code, works);
      t.flash == f && t.at == Up(identity)
  {
    RunFive(s, Boot(code), Advance(works), Advance(works), Advance(works), Advance(works));
  }

  /** In every state a run can leave behind, booting with the right code opens the vault exactly when fewer
      than ten attempts are stored; it then leaves no count, so the next right code opens it too. */
  lemma RightCodeOpensIff(steps: seq<Step>, code: string)
    requires Run(Blank(), steps).at == Off && Opens(Run(Blank(), steps).flash, code)
    ensures var s := Run(Blank(), steps); var t := Run(s, WholeBoot(code, true));
      && (t.at == Up(true) <==> Stored(s.flash) < 10)
      && (t.at == Up(true) ==> Stored(t.flash) == 0 && Opens(t.flash, code) && t.tested == t.lost == 0)
      && (t.at != Up(true) ==> t.flash == s.flash && t.tested == s.tested)
  {
    var s := Run(Blank(), steps);
    WholeBootIsBooted(s, code, true);
    RunFive(s, Boot(code), Advance(true), Advance(true), Advance(true), Advance(true));
  }

  function WrongBoots(f: Flash, codes: seq<string>): Flash
    decreases |codes|
  {
    if codes == [] then f else WrongBoots(Booted(f, codes[0], true).0, codes[1..])
  }

  /** Wrong codes are counted one by one; the vault survives the ninth and not the tenth. */
  lemma {:induction false} TenWrongCodesDestroy(f: Flash, codes: seq<string>)
    requires f.vault.Some? && Stored(f) + |codes| <= 10 && Stored(f) < 10
    requires forall i :: 0 <= i < |codes| ==> !Opens(f, codes[i])
    ensures var g := WrongBoots(f, codes);
      Stored(g) == Stored(f) + |codes| && g.vault == if Stored(g) == 10 then None else f.vault
    decreases |codes|
  {
    if codes != [] {
      var f1 := Booted(f, codes[0], true).0;
      if Stored(f1) < 10 {
        assert forall i :: 0 <= i < |codes[1..]| ==> codes[1..][i] == codes[i + 1];
        TenWrongCodesDestroy(f1, codes[1..]);
      } else {
        assert codes[1..] == [];
      }
    }
  }

  // ---- After the tenth ------------------------------------------------

  predicate Locked(s: State) {
    Stored(s.flash) == MAX_TRIES && !s.at.Count? && !s.at.Try? && s.at != Forgive
  }

  /** The try file outlives the vault: once ten are stored no code is ever tested again, not even the
      right one for the vault sealed in its place, which is shut from its first reboot. */
  lemma {:induction false} LockedForever(s: State, steps: seq<Step>)
    requires Locked(s)
    ensures Locked(Run(s, steps)) && Run(s, steps).tested == s.tested
    decreases |steps|
  {
    hide Next;
    if steps != [] {
      LockedStep(s, steps[0]);
      LockedForever(Next(s, steps[0]), steps[1..]);
    }
  }

  lemma LockedStep(s: State, step: Step)
    requires Locked(s)
    ensures Locked(Next(s, step)) && Next(s, step).tested == s.tested
  {
  }

  /** A device that destroyed its vault makes itself a new one on the next boot, and from then on no run at
      all ever brings its identity up again. */
  lemma ResealedIsShut(s: State, code: string, steps: seq<Step>)
    requires s.at == Off && s.flash.vault.None? && Stored(s.flash) == 10
    ensures var t := Run(s, WholeBoot(code, true));
      && t.at == Up(true) && Opens(t.flash, code)
      && Run(Next(t, Cut), steps).at != Up(true) && Run(Next(t, Cut), steps).flash.vault.Some?
  {
    WholeBootIsBooted(s, code, true);
    var t := Run(s, WholeBoot(code, true));
    ShutForGood(Next(t, Cut), steps);
  }

  predicate Shut(s: State) {
    Stored(s.flash) == MAX_TRIES && s.flash.vault.Some? && (s.at == Off || s.at.Read? || s.at == Up(false))
  }

  lemma {:induction false} ShutForGood(s: State, steps: seq<Step>)
    requires Shut(s)
    ensures Shut(Run(s, steps))
    decreases |steps|
  {
    if steps != [] {
      ShutForGood(Next(s, steps[0]), steps[1..]);
    }
  }
}
