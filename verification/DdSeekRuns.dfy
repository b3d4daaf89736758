/** Whole runs of sparse copies from a bdev: each of them is finite, and it is known
    exactly which step submits something after `dd_exit`. */
module DdSeekRuns {
  import opened Arith
  import opened DdModel
  import opened DdAccounting
  import opened DdCopy
  import opened DdTally
  import opened DdSeekQueue
  import opened DdProgress
  import opened DdSeekHang

  // ------------------------------------------------------------- runs are finite

  /** The steps that one byte of input pays for. */
  function PerByte(c: Config): nat {
    3 * (c.unit + 1) + 3
  }

  /** Device moves, completions and seeks left at most. */
  ghost function Budget(c: Config, s: State): int
    requires s.pos <= |c.input|
  {
    Times(|c.input| - s.pos, PerByte(c)) + Sum(Effort(c.unit), s.ios)
  }

  /** A step that changes one context only, for the better, and keeps or advances the
      cursor. */
  lemma SpendOne(c: Config, s: State, r: State, i: nat)
    requires s.pos <= r.pos <= |c.input| && i < |s.ios| == |r.ios| && r.ios == s.ios[i := r.ios[i]]
    requires var e := Effort(c.unit);
      if s.pos < r.pos then Weigh(e, r.ios[i]) < Weigh(e, s.ios[i]) + PerByte(c) else Weigh(e, r.ios[i]) < Weigh(e, s.ios[i])
    ensures Budget(c, r) < Budget(c, s)
  {
    hide Times, Sum, Weigh, PerByte;
    SumUpdate(Effort(c.unit), s.ios, i, r.ios[i]);
    TimesDrop(|c.input| - s.pos, |c.input| - r.pos, PerByte(c));
  }

  lemma CompleteSpends(c: Config, s: State, i: nat, flagged: bool, env: Env)
    requires c.mode.SparseBdev? && c.inStart <= s.pos && c.outBs > 0 && i < |s.ios| && GoodChain(c, s.ios[i])
    ensures var r := DdModel.Complete(c, s, i, flagged, env);
      && r.pos == s.pos && |r.ios| == |s.ios| && r.ios == s.ios[i := r.ios[i]]
      && Weigh(Effort(c.unit), r.ios[i]) < Weigh(Effort(c.unit), s.ios[i])
  {
    hide Multiple, RoundUp, Sub64, NextHole, NextData, PopulateBuffer, SeekFile;
  }

  lemma HaltedSeekSpends(c: Config, s: State, i: nat, env: Env)
    requires Shape(c, s) && Enabled(c, s, SeekDone(i, env)) && Halted(s)
    ensures var r := Step(c, s, SeekDone(i, env));
      && r.pos == s.pos && r.ios == Park(s, i).ios && r.exits == if s.outstanding == 0 then s.exits + [s.error] else s.exits
  {
    hide Multiple, RoundUp, NextHole, NextData, Sub64, XferLen, PopulateBuffer;
  }

  lemma DataSeekSpends(c: Config, s: State, i: nat, env: Env)
    requires i < |s.ios| && s.ios[i].stage.SeekingData? && s.seekQueue != [] && c.inBs > 0 && !Halted(s)
    ensures var r := SeekDataDone(c, s, i, env);
      && |r.ios| == |s.ios| && r.ios == s.ios[i := r.ios[i]]
      && Weigh(Effort(c.unit), r.ios[i]) < Weigh(Effort(c.unit), s.ios[i])
  {
    hide NextData, Extend;
  }

  /** What a context weighs after it has taken its chunk. */
  lemma PopulateSpends(c: Config, s: State, i: nat, rc: int)
    requires ValidConfig(c) && c.inStart <= s.pos && i < |s.ios| && s.ios[i].stage.Idle? && !Halted(s)
    requires Aim(c, s, i).ios[i].length > 0
    ensures var r := PopulateBuffer(c, s, i, rc);
      && Weigh(Effort(c.unit), r.ios[i]) <= PerByte(c)
      && (s.exits == [] ==> (r.exits != [] <==> rc != 0 && s.outstanding == 0))
  {
    hide Multiple, RoundUp, Sub64, Remaining;
  }

  /** Starting the next seek spends nothing but the wait. */
  lemma StartNextSpends(c: Config, s: State, seekRc: int)
    requires QueueShape(s.ios, s.seekQueue) && !HeadSeeks(s) && s.pos <= |c.input|
    ensures var r := StartNextSeek(c, s, seekRc); r.pos == s.pos && Budget(c, r) <= Budget(c, s)
  {
    hide Times, Sum;
    if s.seekQueue != [] {
      SumUpdate(Effort(c.unit), s.ios, s.seekQueue[0], StartNextSeek(c, s, seekRc).ios[s.seekQueue[0]]);
    }
  }

  lemma HoleSeekSpends(c: Config, s: State, i: nat, env: Env)
    requires Ordered(c, s) && Shape(c, s) && !Halted(s) && i < |s.ios| && s.ios[i].stage.SeekingHole? && s.seekQueue != []
    ensures var r := SeekHoleDone(c, s, i, env); s.pos <= |c.input| && r.pos <= |c.input| && Budget(c, r) < Budget(c, s)
  {
    hide Ordered, Shape, Multiple, RoundUp, NextHole, PopulateBuffer, StartNextSeek, Budget, Accounted, SeekHoleDone, QueueShape,
      ChunkLength, Remaining;
    HoleSeekParts(c, s, i, env);
    var u := Chosen(c, s, i);
    var p := PopulateBuffer(c, u, i, env.rc);
    PopulateEffect(c, u, i, env.rc);
    PopulateSpends(c, u, i, env.rc);
    SpendOne(c, s, p, i);
    StartNextSpends(c, p, env.seekRc);
  }

  /** Every device move, completion and seek uses up the budget, also after errors. */
  lemma StepSpends(c: Config, s: State, e: Event)
    requires Ordered(c, s) && Shape(c, s) && Enabled(c, s, e)
    ensures var r := Step(c, s, e);
      && s.pos <= |c.input| && r.pos <= |c.input|
      && Budget(c, r) <= Budget(c, s) - (if Progresses(e) then 1 else 0)
  {
    hide Ordered, Multiple, RoundUp, Sum, Sub64, NextHole, NextData, PopulateBuffer, XferLen, DdModel.Complete, SeekDataDone,
      SeekHoleDone, Times;
    var r := Step(c, s, e);
    OrderedMode(c, s);
    StepOrdered(c, s, e);
    OrderedMode(c, r);
    CursorNeverGoesBack(c, s, e);
    match e
    case Transfer(i, k) => SpendOne(c, s, r, i);
    case Completion(i, flagged, env) =>
      ChainIsGood(c, s, i);
      CompleteSpends(c, s, i, flagged, env);
      SpendOne(c, s, r, i);
    case SeekDone(i, env) =>
      if Halted(s) {
        HaltedSeekSpends(c, s, i, env);
        SpendOne(c, s, r, i);
      } else if s.ios[i].stage.SeekingHole? {
        HoleSeekSpends(c, s, i, env);
      } else {
        DataSeekSpends(c, s, i, env);
        SpendOne(c, s, r, i);
      }
    case Tick =>
    case Interrupt =>
  }

  lemma {:induction false} RunSpends(c: Config, s: State, events: seq<Event>)
    requires Ordered(c, s) && CanRun(c, s, events)
    ensures var r := Run(c, s, events);
      && Ordered(c, r) && s.pos <= |c.input| && r.pos <= |c.input|
      && Budget(c, r) + CountProgress(events) <= Budget(c, s)
    decreases |events|
  {
    hide Ordered, Step, Shape, Enabled, Budget;
    OrderedMode(c, s);
    if events != [] {
      StepOrdered(c, s, events[0]);
      StepSpends(c, s, events[0]);
      RunSpends(c, Step(c, s, events[0]), events[1..]);
    }
  }

  lemma BudgetNonnegative(c: Config, s: State)
    requires Ordered(c, s)
    ensures s.pos <= |c.input| && Budget(c, s) >= 0
  {
    hide Ordered, Sum;
    OrderedMode(c, s);
    forall i | 0 <= i < |s.ios| ensures Weigh(Effort(c.unit), s.ios[i]) >= 0 {
      if InChain(s.ios[i]) { ChainIsGood(c, s, i); }
    }
    SumNonnegative(Effort(c.unit), s.ios);
  }

  lemma {:induction false} WaitingEffort(unit: nat, ios: seq<Io>)
    requires forall i :: 0 <= i < |ios| ==> !InChain(ios[i])
    ensures Sum(Effort(unit), ios) <= 3 * |ios|
  {
    if ios != [] {
      assert forall i :: 0 < i < |ios| ==> ios[i] == ios[1..][i - 1];
      WaitingEffort(unit, ios[1..]);
    }
  }

  /** Every run of a sparse copy from a bdev is finite, through errors and interrupts: its
      moves, completions and seeks are bounded by the input and the queue depth. */
  lemma BdevRunsAreFinite(c: Config, s: State, envs: seq<Env>, events: seq<Event>)
    requires BdevRun(c, s, envs, events)
    ensures CountProgress(events) <= (|c.input| - c.inStart) * PerByte(c) + 3 * |s.ios|
  {
    hide Ordered, Launch, CanRun, Sum, Times, PerByte, InBlocks, Run;
    var t := Launch(c, s, envs, |s.ios|);
    LaunchOrdered(c, s, envs, |s.ios|);
    if |s.ios| >= 1 { LaunchStarts(c, s, envs, |s.ios|); }
    WaitingEffort(c.unit, t.ios);
    RunSpends(c, t, events);
    BudgetNonnegative(c, Run(c, t, events));
    TimesIsProduct(|c.input| - c.inStart, PerByte(c));
  }

  // --------------------------------------------------- submissions after `dd_exit`

  /** Something is in flight although `dd_exit` has been called. */
  predicate InFlightAfterExit(s: State) {
    s.exits != [] && !NothingInFlight(s)
  }

  /** The end of the only hole seek in flight, whose transfer is refused while others wait
      and input is left: `dd_exit` is called, and then the next seek is started. */
  predicate LateSeek(c: Config, s: State, e: Event)
    requires Shape(c, s)
  {
    && e.SeekDone? && e.i < |s.ios| && s.ios[e.i].stage.SeekingHole? && !Halted(s)
    && e.env.rc != 0 && e.env.seekRc == 0
    && s.outstanding == 1 && |s.seekQueue| >= 2
    && s.pos + Min(HoleLength(c, s.pos), Remaining(c, s)) < |c.input|
  }

  lemma HoleSeekLateIff(c: Config, s: State, i: nat, env: Env)
    requires Ordered(c, s) && Shape(c, s) && !Halted(s) && i < |s.ios| && s.ios[i].stage.SeekingHole? && s.seekQueue != []
    ensures var r := SeekHoleDone(c, s, i, env);
      r.exits != [] && r.outstanding > 0 <==> LateSeek(c, s, SeekDone(i, env))
  {
    hide Ordered, Shape, Multiple, RoundUp, NextHole, PopulateBuffer, GoodIos, SeekHoleDone, QueueShape, ValidConfig, ChunkLength,
      Remaining, Sum;
    HoleSeekParts(c, s, i, env);
    var u := Chosen(c, s, i);
    PopulateEffect(c, u, i, env.rc);
    PopulateSpends(c, u, i, env.rc);
    SameRemaining(c, s, u);
  }

  lemma SameRemaining(c: Config, s: State, u: State)
    requires c.inStart <= s.pos == u.pos
    ensures Remaining(c, s) == Remaining(c, u)
  {
  }

  /** Before an error: nothing but such a step leaves something in flight after
      `dd_exit`. */
  lemma HealthyLateIff(c: Config, s: State, e: Event)
    requires Ordered(c, s) && Shape(c, s) && Enabled(c, s, e) && !Halted(s) && !InFlightAfterExit(s)
    ensures InFlightAfterExit(Step(c, s, e)) <==> LateSeek(c, s, e)
  {
    hide Ordered, Multiple, RoundUp, NextHole, NextData, PopulateBuffer, SeekHoleDone, SeekDataDone, DdModel.Complete,
      Remaining, Sum, XferLen, HoleLength;
    var r := Step(c, s, e);
    StepCounts(c, s, e);
    FlyingBounds(r.ios);
    FlyingBounds(s.ios);
    NotExited(c, s);
    OrderedMode(c, s);
    match e
    case Transfer(i, k) =>
    case Completion(i, flagged, env) => CompleteCounts(c, s, i, flagged, env);
    case SeekDone(i, env) =>
      if s.ios[i].stage.SeekingHole? { HoleSeekLateIff(c, s, i, env); } else { SeekDataCounts(c, s, i, env); }
    case Tick =>
    case Interrupt =>
  }

  /** After an error nothing is submitted any more. */
  lemma HaltedNeverLate(c: Config, s: State, e: Event)
    requires Ordered(c, s) && Shape(c, s) && Enabled(c, s, e) && Halted(s) && !InFlightAfterExit(s)
    ensures !InFlightAfterExit(Step(c, s, e))
  {
    hide Ordered, Shape, Multiple, RoundUp, NextHole, NextData, PopulateBuffer, SeekHoleDone, SeekDataDone, DdModel.Complete,
      Remaining, Sum, XferLen;
    var r := Step(c, s, e);
    OrderedMode(c, s);
    StepOrdered(c, s, e);
    if e.Completion? {
      HaltedCompletion(c, s, e.i, e.flagged, e.env);
      HaltedCounted(c, r);
    } else if e.SeekDone? {
      HaltedSeekSpends(c, s, e.i, e.env);
      OrderedPositive(c, s, e.i);
    }
  }

  lemma HaltedCounted(c: Config, s: State)
    requires Ordered(c, s) && Halted(s)
    ensures s.outstanding == 0 ==> NothingInFlight(s)
  {
    hide Base, QueueShape, Sum;
    FlyingBounds(s.ios);
  }

  lemma StepLateIff(c: Config, s: State, e: Event)
    requires Ordered(c, s) && Shape(c, s) && Enabled(c, s, e) && !InFlightAfterExit(s)
    ensures InFlightAfterExit(Step(c, s, e)) <==> LateSeek(c, s, e)
  {
    hide Ordered, Shape, Step, Enabled, InFlightAfterExit;
    if Halted(s) { HaltedNeverLate(c, s, e); } else { HealthyLateIff(c, s, e); }
  }

  /** Some state of the run has something in flight after `dd_exit`. */
  ghost predicate EverInFlightAfterExit(c: Config, s: State, events: seq<Event>)
    requires CanRun(c, s, events)
    decreases |events|
  {
    InFlightAfterExit(s) || (events != [] && EverInFlightAfterExit(c, Step(c, s, events[0]), events[1..]))
  }

  /** Some step of the run is a late seek. */
  ghost predicate EverLateSeek(c: Config, s: State, events: seq<Event>)
    requires CanRun(c, s, events)
    decreases |events|
  {
    events != [] && (LateSeek(c, s, events[0]) || EverLateSeek(c, Step(c, s, events[0]), events[1..]))
  }

  lemma {:induction false} RunLateIff(c: Config, s: State, events: seq<Event>)
    requires Ordered(c, s) && CanRun(c, s, events) && !InFlightAfterExit(s)
    ensures EverInFlightAfterExit(c, s, events) <==> EverLateSeek(c, s, events)
    decreases |events|
  {
    hide Ordered, Shape, Step, Enabled, InFlightAfterExit, LateSeek;
    if events != [] {
      StepOrdered(c, s, events[0]);
      StepLateIff(c, s, events[0]);
      var t := Step(c, s, events[0]);
      if InFlightAfterExit(t) {
        assert EverInFlightAfterExit(c, t, events[1..]);
      } else {
        RunLateIff(c, t, events[1..]);
      }
    }
  }

  /** During the launch `dd_exit` is called only with nothing in flight and nothing to
      come. */
  lemma {:induction false} LaunchNotLate(c: Config, s: State, envs: seq<Env>, n: nat)
    requires BdevConfig(c) && Init(c, s) && n <= |s.ios| == |envs|
    ensures var r := Launch(c, s, envs, n); r.exits != [] ==> r.outstanding == 0 && (Halted(r) || Remaining(c, r) == 0)
  {
    hide PopulateBuffer, SeekFile, InBlocks, Sub64;
    if n > 0 { LaunchNotLate(c, s, envs, n - 1); }
  }

  /** A run of a sparse copy from a bdev has something in flight after `dd_exit`, when the
      bdev is being closed, if and only if one of its steps is a late seek. */
  lemma SubmitsAfterExitIff(c: Config, s: State, envs: seq<Env>, events: seq<Event>)
    requires BdevRun(c, s, envs, events)
    ensures var t := Launch(c, s, envs, |s.ios|);
      EverInFlightAfterExit(c, t, events) <==> EverLateSeek(c, t, events)
  {
    hide Launch, InBlocks, CanRun, EverInFlightAfterExit, EverLateSeek, Sum, Remaining;
    var t := Launch(c, s, envs, |s.ios|);
    LaunchOrdered(c, s, envs, |s.ios|);
    LaunchNotLate(c, s, envs, |s.ios|);
    FlyingBounds(t.ios);
    RunLateIff(c, t, events);
  }

  /** Two contexts, some data and a final hole are enough: the transfer of the first chunk
      is refused, `dd_exit` is called, and a seek is left in flight. */
  lemma LateSeekHappens(c: Config, s: State) returns (events: seq<Event>)
    requires BdevConfig(c) && Init(c, s) && !s.interrupt && |s.ios| >= 2 && !NoData(c) && FinalHole(c)
    ensures BdevRun(c, s, Accepting(|s.ios|), events) && |events| == 2
    ensures InFlightAfterExit(BdevOutcome(c, s, Accepting(|s.ios|), events))
  {
    hide Ordered, Launch, NextData, InBlocks, Step, Shape, InFlightAfterExit, Remaining;
    var envs := Accepting(|s.ios|);
    var t := Launch(c, s, envs, |s.ios|);
    LaunchLines(c, s, |s.ios|);
    LaunchOrdered(c, s, envs, |s.ios|);
    OrderedShape(c, t);
    assert forall j :: 0 <= j < |t.seekQueue| ==> t.seekQueue[j] < |t.ios| by { QueueInRange(c, t); }
    FindData(c, t);
    var u := Step(c, t, SeekDone(0, ACCEPTED));
    OrderedShape(c, u);
    var e := SeekDone(0, Env(-5, 0, 0, 0, 0));
    SeekIsLate(c, u, e);
    var v := Step(c, u, e);
    NoEvents(c, v);
    ReachesFirst(c, u, e, [], v);
    ReachesFirst(c, t, SeekDone(0, ACCEPTED), [e] + [], v);
    events := [SeekDone(0, ACCEPTED)] + ([e] + []);
  }

  lemma QueueInRange(c: Config, s: State)
    requires Shape(c, s)
    ensures forall j :: 0 <= j < |s.seekQueue| ==> s.seekQueue[j] < |s.ios|
  {
  }

  lemma SeekIsLate(c: Config, s: State, e: Event)
    requires Going(c, s, s.seekQueue, 1) && Shape(c, s) && |s.seekQueue| >= 2 && FinalHole(c)
    requires e == SeekDone(s.seekQueue[0], Env(-5, 0, 0, 0, 0)) && s.ios[e.i].stage.SeekingHole?
    ensures Enabled(c, s, e) && InFlightAfterExit(Step(c, s, e))
  {
    hide Ordered, Multiple, RoundUp, NextHole, XferLen, Step, ChunkLength, HoleLength, PopulateBuffer, Remaining;
    OrderedMode(c, s);
    HoleSeekParts(c, s, e.i, e.env);
    var u := Chosen(c, s, e.i);
    ChunkBeforeHole(c, u, e.i);
    SameRemaining(c, s, u);
    StepLateIff(c, s, e);
  }
}
