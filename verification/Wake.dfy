// The radio interrupt and the task it wakes, step by step.
module RadioWake {
  /** Where the work task stands: about to test the flag, to clear it, to read the radio's interrupt
      register, to take its notification, or asleep in that call. */
  datatype TaskAt = Test | Clear | Check | Take | Blocked

  /** `edge` is the interrupt line waiting to be served, `inIsr` the handler between its two actions.
      The counters number received frames: `latched` by the radio, `announced` by an interrupt that has
      started, `checked` by the task. `stale` marks a flag raised with nobody to notify. */
  datatype State = State(
    irqPending: bool, notified: bool, published: bool, edge: bool, inIsr: bool, at: TaskAt,
    latched: nat, announced: nat, checked: nat, stale: bool)

  /** The radio raises its line for a received frame or a finished transmission; the handler sets the
      flag, then wakes the task if its handle is known; setup publishes the handle; the task moves; its
      sleep times out. In any order at all. */
  datatype Step = Raise(received: bool) | IsrSet | IsrWake | Publish | TaskMoves | Timeout

  /** The task's first step: the radio is up, `early` frames came in meanwhile, and setup has raised the
      flag for them. */
  function Start(early: nat): State {
    State(true, false, false, false, false, Test, early, early, 0, false)
  }

  /** One step; a step that cannot be taken changes nothing. */
  function Next(s: State, step: Step): State {
    match step
    case Raise(received) => s.(edge := true, latched := s.latched + if received then 1 else 0)
    case IsrSet =>
      if s.edge && !s.inIsr then s.(edge := false, inIsr := true, irqPending := true, announced := s.latched) else s
    case IsrWake =>
      if !s.inIsr then s
      else if s.published then s.(inIsr := false, notified := true, stale := false)
      else s.(inIsr := false, stale := s.stale || s.irqPending)
    case Publish => s.(published := true)
    case TaskMoves => TaskNext(s)
    case Timeout => if s.at == Blocked then s.(at := Test) else s
  }

  function TaskNext(s: State): State {
    match s.at
    case Test => if s.irqPending then s.(at := Clear) else s.(at := Take)
    case Clear => s.(irqPending := false, stale := false, at := Check)
    case Check => s.(checked := s.latched, at := Take)
    case Take => if s.notified then s.(notified := false, at := Test) else s.(at := Blocked)
    case Blocked => if s.notified then s.(notified := false, at := Test) else s
  }

  function Run(s: State, steps: seq<Step>): State
    decreases |steps|
  {
    if steps == [] then s else Run(Next(s, steps[0]), steps[1..])
  }

  // ---- No lost wake-up ------------------------------------------------

  /** A flag that is not stale has a notification behind it or a task about to see it, and a frame that
      was announced but not yet checked has the flag up or the check under way. */
  predicate Inv(s: State) {
    && s.checked <= s.latched && s.announced <= s.latched
    && (s.irqPending && !s.stale && !s.inIsr ==> s.notified || s.at == Test || s.at == Clear)
    && (s.stale ==> s.irqPending)
    && (s.announced > s.checked ==> s.irqPending || s.at == Check)
  }

  lemma StepKeepsInv(s: State, step: Step)
    requires Inv(s)
    ensures Inv(Next(s, step))
  {
    match step
    case Raise(_) =>
    case IsrSet =>
    case IsrWake =>
    case Publish =>
    case Timeout =>
    case TaskMoves =>
      match s.at
      case Test =>
      case Clear =>
      case Check =>
      case Take =>
      case Blocked =>
  }

  lemma {:induction false} RunKeepsInv(s: State, steps: seq<Step>)
    requires Inv(s)
    ensures Inv(Run(s, steps))
    decreases |steps|
  {
    hide Inv, Next;
    if steps != [] {
      StepKeepsInv(s, steps[0]);
      RunKeepsInv(Next(s, steps[0]), steps[1..]);
    }
  }

  predicate Asleep(s: State) {
    s.at == Blocked && !s.notified && !s.inIsr
  }

  /** In every interleaving: a task asleep with no notification outstanding has the flag down, unless it
      was raised before the handle was published; and with the flag down, every frame whose interrupt
      has run was checked after it latched. */
  lemma AsleepMeansDone(early: nat, steps: seq<Step>)
    requires Asleep(Run(Start(early), steps))
    ensures var s := Run(Start(early), steps);
      (s.irqPending <==> s.stale) && (!s.stale ==> s.announced <= s.checked)
  {
    RunKeepsInv(Start(early), steps);
  }

  lemma {:induction false} RunConcat(s: State, a: seq<Step>, b: seq<Step>)
    ensures Run(s, a + b) == Run(Run(s, a), b)
    decreases |a|
  {
    if a == [] {
      assert a + b == b;
    } else {
      assert (a + b)[0] == a[0] && (a + b)[1..] == a[1..] + b;
      RunConcat(Next(s, a[0]), a[1..], b);
    }
  }

  lemma {:induction false} PublishedNeverStale(s: State, steps: seq<Step>)
    requires s.published && !s.stale
    ensures Run(s, steps).published && !Run(s, steps).stale
    decreases |steps|
  {
    if steps != [] {
      PublishedNeverStale(Next(s, steps[0]), steps[1..]);
    }
  }

  /** So when the handle is published before the first interrupt is taken, no wake-up is ever lost. */
  lemma NoLostWakeUp(early: nat, before: seq<Step>, after: seq<Step>)
    requires IsrSet !in before
    requires Asleep(Run(Start(early), before + [Publish] + after))
    ensures var s := Run(Start(early), before + [Publish] + after);
      !s.irqPending && s.announced <= s.checked
  {
    AsleepMeansDone(early, before + [Publish] + after);
    QuietBefore(Start(early), before);
    RunConcat(Start(early), before + [Publish], after);
    RunConcat(Start(early), before, [Publish]);
    var s := Run(Start(early), before);
    assert Run(s, [Publish]) == Run(Next(s, Publish), []);
    PublishedNeverStale(Next(s, Publish), after);
  }

  lemma {:induction false} QuietBefore(s: State, steps: seq<Step>)
    requires !s.inIsr && !s.stale && IsrSet !in steps
    ensures !Run(s, steps).inIsr && !Run(s, steps).stale
    decreases |steps|
  {
    if steps != [] {
      QuietBefore(Next(s, steps[0]), steps[1..]);
    }
  }

  /** An interrupt taken before that can be slept on: the task is asleep with the frame unread. */
  lemma EarlyInterruptIsSleptOn(early: nat, steps: seq<Step>)
    requires steps == FirstPass() + [Raise(true), IsrSet, IsrWake, Publish]
    ensures var s := Run(Start(early), steps); Asleep(s) && s.published && s.irqPending && s.announced > s.checked
  {
    var s0 := State(false, false, false, false, false, Blocked, early, early, early, false);
    FirstPassSleeps(early);
    RunConcat(Start(early), FirstPass(), [Raise(true), IsrSet, IsrWake, Publish]);
    var s1 := Next(s0, Raise(true));
    var s2 := Next(s1, IsrSet);
    var s3 := Next(s2, IsrWake);
    var s4 := Next(s3, Publish);
    assert Run(s4, []) == s4;
    assert Run(s3, [Publish]) == s4;
    assert Run(s2, [IsrWake, Publish]) == s4;
    assert Run(s1, [IsrSet, IsrWake, Publish]) == s4;
    assert Run(s0, [Raise(true), IsrSet, IsrWake, Publish]) == s4;
  }

  function FirstPass(): seq<Step> {
    [TaskMoves, TaskMoves, TaskMoves, TaskMoves]
  }

  // Undisturbed, the first pass reads what setup left and goes to sleep.
  lemma FirstPassSleeps(early: nat)
    ensures Run(Start(early), FirstPass())
         == State(false, false, false, false, false, Blocked, early, early, early, false)
  {
    var s1 := Next(Start(early), TaskMoves);
    var s2 := Next(s1, TaskMoves);
    var s3 := Next(s2, TaskMoves);
    var s4 := Next(s3, TaskMoves);
    assert Run(s4, []) == s4;
    assert Run(s3, [TaskMoves]) == s4;
    assert Run(s2, [TaskMoves, TaskMoves]) == s4;
    assert Run(s1, [TaskMoves, TaskMoves, TaskMoves]) == s4;
  }

  // ---- One tick is enough ---------------------------------------------

  /** The first n frames have been checked, or this pass is going to check them. */
  predicate Bound(s: State, n: nat) {
    n <= s.latched && (n <= s.checked || (s.at == Test && s.irqPending) || s.at == Clear || s.at == Check)
  }

  lemma StepKeepsBound(s: State, n: nat, step: Step)
    requires Bound(s, n)
    ensures Bound(Next(s, step), n)
  {
    match step
    case Raise(_) =>
    case IsrSet =>
    case IsrWake =>
    case Publish =>
    case Timeout =>
    case TaskMoves =>
      match s.at
      case Test =>
      case Clear =>
      case Check =>
      case Take =>
      case Blocked =>
  }

  lemma {:induction false} RunKeepsBound(s: State, n: nat, steps: seq<Step>)
    requires Bound(s, n)
    ensures Bound(Run(s, steps), n)
    decreases |steps|
  {
    hide Bound, Next;
    if steps != [] {
      StepKeepsBound(s, n, steps[0]);
      RunKeepsBound(Next(s, steps[0]), n, steps[1..]);
    }
  }

  /** Whatever an interrupt had announced when a pass begins, the task has checked by the time it next
      reaches its sleep, however many interrupts fall in between: a frame slept on waits one timeout. */
  lemma OnePassChecksAll(early: nat, before: seq<Step>, after: seq<Step>)
    requires Run(Start(early), before).at == Test
    requires Run(Start(early), before + after).at in {Take, Blocked}
    ensures Run(Start(early), before).announced <= Run(Start(early), before + after).checked
  {
    var s := Run(Start(early), before);
    RunKeepsInv(Start(early), before);
    RunKeepsBound(s, s.announced, after);
    RunConcat(Start(early), before, after);
  }
}
