/** When a sparse copy from a bdev comes to an end. Without an error it always reaches
    `dd_exit` exactly if there are at most two contexts, or no data, or data at the very
    end of the input. Once an error or an interrupt has come it reaches `dd_exit`
    exactly if the step that brought it did, or left something in flight but no seek. */
module DdSeekHang {
  import opened Arith
  import opened ByteOrder
  import opened DdModel
  import opened DdAccounting
  import opened DdCopy
  import opened DdTally
  import opened DdSeekQueue
  import opened DdProgress
  import DdSetup

  // ------------------------------------------------ the count at the first error

  predicate NobodySeeks(s: State) {
    forall i :: 0 <= i < |s.ios| ==> !Seeking(s.ios[i])
  }

  predicate NothingInFlight(s: State) {
    forall i :: 0 <= i < |s.ios| ==> !InFlight(s.ios[i])
  }

  /** The completion of a transfer changes its own context only, counts what is in
      flight, and calls `dd_exit` only if nothing is. */
  lemma CompleteCounts(c: Config, s: State, i: nat, flagged: bool, env: Env)
    requires c.mode.SparseBdev? && c.inStart <= s.pos && c.outBs > 0 && i < |s.ios| && InChain(s.ios[i])
    ensures var r := DdModel.Complete(c, s, i, flagged, env);
      && |r.ios| == |s.ios| && r.ios == s.ios[i := r.ios[i]]
      && r.outstanding == s.outstanding - 1 + Weigh(Flying, r.ios[i])
      && (r.exits == s.exits || r.outstanding == 0)
  {
    hide Multiple, RoundUp, Sub64, NextHole, NextData, PopulateBuffer, SeekFile;
  }

  lemma SeekDataCounts(c: Config, s: State, i: nat, env: Env)
    requires i < |s.ios| && Seeking(s.ios[i]) && s.seekQueue != [] && c.inBs > 0 && !Halted(s)
    ensures var r := SeekDataDone(c, s, i, env);
      && |r.ios| == |s.ios| && r.ios == s.ios[i := r.ios[i]]
      && r.outstanding == s.outstanding - 1 + Weigh(Flying, r.ios[i])
      && (r.exits == s.exits || r.outstanding <= 0)
  {
    hide NextData, Extend;
  }

  lemma SeekHoleCounts(c: Config, s: State, i: nat, env: Env)
    requires Ordered(c, s) && i < |s.ios| && s.ios[i].stage.SeekingHole? && !Halted(s)
    requires Shape(c, s) && s.seekQueue != []
    ensures var r := SeekHoleDone(c, s, i, env); r.outstanding == Sum(Flying, r.ios)
  {
    hide Multiple, RoundUp, Ledger, Sum, GoodIos, InBlocks, Sub64, NextHole, PopulateBuffer, XferLen, ChunkLength, StartNextSeek;
    BlockStart(s.pos, c.inBs);
    SeekerIsHead(s.ios, s.seekQueue, i);
    LeaveQueue(c, s, i);
    var t := Park(s, i).(outstanding := s.outstanding - 1, seekQueue := s.seekQueue[1..]);
    var n := HoleLength(c, s.pos);
    HoleChunk(c, t, i, n, env.rc);
    assert WithLength(Park(s, i), i, n).(outstanding := s.outstanding - 1, seekQueue := s.seekQueue[1..]) == WithLength(t, i, n);
    StartNextCounts(c, PopulateBuffer(c, WithLength(t, i, n), i, env.rc), env.seekRc);
  }

  lemma StartNextCounts(c: Config, s: State, seekRc: int)
    requires QueueShape(s.ios, s.seekQueue) && !HeadSeeks(s) && s.outstanding == Sum(Flying, s.ios)
    ensures var r := StartNextSeek(c, s, seekRc); r.outstanding == Sum(Flying, r.ios)
  {
    hide Sum;
    if s.seekQueue != [] { SumUpdate(Flying, s.ios, s.seekQueue[0], StartNextSeek(c, s, seekRc).ios[s.seekQueue[0]]); }
  }

  /** Up to and including the step that brings the first error or the interrupt, the
      count is exact. */
  lemma StepCounts(c: Config, s: State, e: Event)
    requires Ordered(c, s) && !Halted(s) && Shape(c, s) && Enabled(c, s, e)
    ensures var r := Step(c, s, e); r.outstanding == Sum(Flying, r.ios)
  {
    hide Multiple, RoundUp, Ledger, Sum, GoodIos, InBlocks, Sub64, NextHole, NextData, PopulateBuffer, XferLen, DdModel.Complete,
      SeekDataDone, SeekHoleDone, QueueShape;
    var r := Step(c, s, e);
    match e
    case Transfer(i, k) => SumUpdate(Flying, s.ios, i, r.ios[i]);
    case Completion(i, flagged, env) =>
      CompleteCounts(c, s, i, flagged, env);
      SumUpdate(Flying, s.ios, i, r.ios[i]);
    case SeekDone(i, env) =>
      if s.ios[i].stage.SeekingHole? {
        SeekHoleCounts(c, s, i, env);
      } else {
        SeekDataCounts(c, s, i, env);
        SumUpdate(Flying, s.ios, i, r.ios[i]);
      }
    case Tick =>
    case Interrupt =>
  }

  // ------------------------------------------------- after an error or an interrupt

  /** `outstanding` counts something besides the transfers in flight. */
  ghost predicate Leaked(s: State) {
    Halted(s) && s.outstanding > Sum(Chained, s.ios)
  }

  lemma StepLeaks(c: Config, s: State, e: Event)
    requires c.mode.SparseBdev? && Leaked(s) && Shape(c, s) && Enabled(c, s, e)
    ensures var r := Step(c, s, e); Leaked(r) && r.exits == s.exits
  {
    hide Multiple, RoundUp, Sub64, NextHole, NextData, PopulateBuffer, XferLen, DdModel.Complete, Sum;
    if e.Transfer? {
      SumUpdates(s.ios, e.i, Step(c, s, e).ios[e.i]);
    } else if e.Completion? || e.SeekDone? {
      if e.Completion? { HaltedCompletion(c, s, e.i, e.flagged, e.env); }
      SumUpdates(s.ios, e.i, Park(s, e.i).ios[e.i]);
      ChainedBounds(Park(s, e.i).ios, 0);
    }
  }

  lemma {:induction false} RunLeaks(c: Config, s: State, events: seq<Event>)
    requires c.mode.SparseBdev? && Leaked(s) && CanRun(c, s, events)
    ensures Run(c, s, events).exits == s.exits
    decreases |events|
  {
    hide Shape, Enabled, Step, Leaked;
    if events != [] {
      StepLeaks(c, s, events[0]);
      RunLeaks(c, Step(c, s, events[0]), events[1..]);
    }
  }

  /** Only transfers are in flight, all of them counted, and the last one calls
      `dd_exit`. */
  ghost predicate Draining(s: State) {
    && Halted(s) && NobodySeeks(s) && s.outstanding == Sum(Chained, s.ios)
    && (s.outstanding == 0 ==> s.exits != [])
  }

  lemma StepDrains(c: Config, s: State, e: Event)
    requires c.mode.SparseBdev? && Draining(s) && Shape(c, s) && Enabled(c, s, e)
    ensures Draining(Step(c, s, e))
  {
    hide Multiple, RoundUp, Sub64, NextHole, NextData, PopulateBuffer, XferLen, DdModel.Complete, SeekDataDone, SeekHoleDone, Sum;
    if e.Transfer? {
      SumUpdates(s.ios, e.i, Step(c, s, e).ios[e.i]);
    } else if e.Completion? {
      HaltedCompletion(c, s, e.i, e.flagged, e.env);
      SumUpdates(s.ios, e.i, Park(s, e.i).ios[e.i]);
    }
  }

  /** After an error or an interrupt the context of a completed transfer stops. */
  lemma HaltedCompletion(c: Config, s: State, i: nat, flagged: bool, env: Env)
    requires Halted(s) && c.mode.SparseBdev? && c.inStart <= s.pos && c.outBs > 0 && i < |s.ios| && InChain(s.ios[i])
    ensures var r := DdModel.Complete(c, s, i, flagged, env);
      && Halted(r) && r.ios == Park(s, i).ios && r.outstanding == s.outstanding - 1
      && (if r.outstanding == 0 then r.exits != [] else r.exits == s.exits)
  {
    hide Multiple, RoundUp, Sub64, NextHole, NextData, PopulateBuffer, SeekFile, SeekBdev;
  }

  lemma {:induction false} RunDrains(c: Config, s: State, events: seq<Event>)
    requires c.mode.SparseBdev? && Draining(s) && CanRun(c, s, events)
    ensures Draining(Run(c, s, events))
    decreases |events|
  {
    hide Shape, Enabled, Step, Draining;
    if events != [] {
      StepDrains(c, s, events[0]);
      RunDrains(c, Step(c, s, events[0]), events[1..]);
    }
  }

  /** With nothing in flight only the poller and the signal are left. */
  lemma {:induction false} RunIdles(c: Config, s: State, events: seq<Event>)
    requires NothingInFlight(s) && CanRun(c, s, events)
    ensures Run(c, s, events).exits == s.exits
    decreases |events|
  {
    hide Shape, DdModel.Complete, SeekDataDone, SeekHoleDone, Move;
    if events != [] { RunIdles(c, Step(c, s, events[0]), events[1..]); }
  }

  lemma {:induction false} ChainedIsFlying(ios: seq<Io>)
    requires forall i :: 0 <= i < |ios| ==> !Seeking(ios[i])
    ensures Sum(Chained, ios) == Sum(Flying, ios)
  {
    if ios != [] {
      assert forall i :: 0 < i < |ios| ==> ios[i] == ios[1..][i - 1];
      ChainedIsFlying(ios[1..]);
    }
  }

  /** After the step that brings the first error or the interrupt, a run that has come
      to rest has called `dd_exit` if and only if that step did, or left something in
      flight but no seek. */
  lemma HaltedRunExitsIff(c: Config, s: State, e: Event, events: seq<Event>)
    requires Ordered(c, s) && !Halted(s) && Shape(c, s) && Enabled(c, s, e) && Halted(Step(c, s, e))
    requires CanRun(c, Step(c, s, e), events) && NothingInFlight(Run(c, Step(c, s, e), events))
    ensures var t := Step(c, s, e);
      Run(c, t, events).exits != [] <==> t.exits != [] || (t.outstanding > 0 && NobodySeeks(t))
  {
    hide Ordered, Step, Shape, Enabled, CanRun, Run, Sum;
    var t := Step(c, s, e);
    assert c.mode.SparseBdev? by { OrderedMode(c, s); }
    StepCounts(c, s, e);
    if !NobodySeeks(t) {
      var i: nat :| i < |t.ios| && Seeking(t.ios[i]);
      ChainedBounds(t.ios, i);
      RunLeaks(c, t, events);
    } else {
      ChainedIsFlying(t.ios);
      FlyingBounds(t.ios);
      if t.outstanding == 0 {
        RunIdles(c, t, events);
      } else {
        RunDrains(c, t, events);
        var r := Run(c, t, events);
        ChainedIsFlying(r.ios);
        FlyingBounds(r.ios);
      }
    }
  }

  lemma OrderedMode(c: Config, s: State)
    requires Ordered(c, s)
    ensures c.mode.SparseBdev? && ValidConfig(c) && c.inStart <= s.pos <= End(c) == |c.input|
  {
    hide Ledger, QueueShape, Live, Sum, GoodIos, InBlocks, Accounted;
  }

  /** Before an error `dd_exit` has been called only if nothing is in flight. */
  lemma NotExited(c: Config, s: State)
    requires Ordered(c, s) && !Halted(s)
    ensures s.outstanding == Sum(Flying, s.ios)
    ensures s.outstanding > 0 ==> s.exits == []
  {
    hide Ledger, QueueShape, Live, Sum, GoodIos, BdevConfig;
  }

  /** A run that is interrupted while something is in flight ends with `dd_exit` if and
      only if no seek was in flight. */
  lemma InterruptExitsIff(c: Config, s: State, events: seq<Event>)
    requires Ordered(c, s) && !Halted(s) && s.outstanding > 0 && Shape(c, s)
    requires CanRun(c, Step(c, s, Interrupt), events) && NothingInFlight(Run(c, Step(c, s, Interrupt), events))
    ensures Run(c, Step(c, s, Interrupt), events).exits != [] <==> NobodySeeks(s)
  {
    hide Ordered, Shape, CanRun, Run;
    NotExited(c, s);
    HaltedRunExitsIff(c, s, Interrupt, events);
  }

  /** If the interrupt arrives while a seek is in flight, no continuation of the run
      ever calls `dd_exit`, at rest or not. */
  lemma InterruptDuringSeekNeverExits(c: Config, s: State, i: nat, events: seq<Event>)
    requires Ordered(c, s) && !Halted(s) && i < |s.ios| && Seeking(s.ios[i])
    requires Shape(c, s) && CanRun(c, Step(c, s, Interrupt), events)
    ensures Run(c, Step(c, s, Interrupt), events).exits == []
  {
    hide Ordered, Shape, Sum;
    OrderedMode(c, s);
    NotExited(c, s);
    ChainedBounds(s.ios, i);
    RunLeaks(c, Step(c, s, Interrupt), events);
  }

  /** The same holds for an error: a refused submission or a flagged completion of a
      transfer while another context is seeking. */
  lemma ErrorDuringSeekNeverExits(c: Config, s: State, i: nat, e: Event, events: seq<Event>)
    requires Ordered(c, s) && !Halted(s) && i < |s.ios| && Seeking(s.ios[i])
    requires Shape(c, s) && Enabled(c, s, e) && e.Completion? && Halted(Step(c, s, e))
    requires CanRun(c, Step(c, s, e), events)
    ensures Run(c, Step(c, s, e), events).exits == []
  {
    hide Ordered, Sum, DdModel.Complete, CanRun, Run, XferLen;
    OrderedMode(c, s);
    NotExited(c, s);
    StepCounts(c, s, e);
    CompleteCounts(c, s, e.i, e.flagged, e.env);
    var t := Step(c, s, e);
    assert Seeking(t.ios[i]);
    FlyingBounds(s.ios);
    FlyingBounds(t.ios);
    ChainedBounds(t.ios, i);
    RunLeaks(c, t, events);
  }

  // ------------------------------------------------------- runs without an error

  /** There is nothing to copy. */
  ghost predicate NoData(c: Config) {
    NextData(c.data, c.inStart).None?
  }

  /** A copy that cannot leave contexts waiting for nothing: two contexts at most, no
      data in the region, or data at its very end. */
  ghost predicate Wakes(c: Config, contexts: nat) {
    contexts <= 2 || NoData(c) || c.data[|c.data| - 1]
  }

  /** Without an error something is in flight until `dd_exit`, and with two contexts
      the queue gets stuck only after it. */
  ghost predicate Awake(c: Config, s: State)
    requires forall j :: 0 <= j < |s.seekQueue| ==> s.seekQueue[j] < |s.ios|
  {
    && (s.outstanding == 0 ==> s.exits != [])
    && (|s.ios| <= 2 && Stuck(c, s) ==> s.exits != [])
  }

  /** Nothing gets stuck before `dd_exit`. */
  lemma NotStuck(c: Config, s: State)
    requires Ordered(c, s) && !Halted(s) && Wakes(c, |s.ios|) && !NoData(c) && Awake(c, s) && s.exits == []
    ensures !Stuck(c, s)
  {
    hide Multiple, RoundUp, Ledger, Sum, InBlocks, GoodIos, NextData;
  }

  lemma SeekAwake(c: Config, s: State, i: nat, env: Env)
    requires ValidConfig(c) && c.mode.SparseBdev? && Held(c, s, i) && !Halted(s) && s.exits == []
    requires QueueShape(s.ios, s.seekQueue) && !Stuck(c, s) && s.pos <= End(c)
    ensures var r := TargetSeek(c, s, i, env);
      && (forall j :: 0 <= j < |r.seekQueue| ==> r.seekQueue[j] < |r.ios|)
      && (!Halted(r) ==> Awake(c, r))
  {
    hide Multiple, RoundUp, GoodIos, NextData, NextHole, PopulateBuffer, SeekFile, Sum;
    FlyingBounds(s.ios);
    RemainingZero(c, s);
    if s.seekQueue != [] { assert i !in s.seekQueue; }
  }

  /** The queue is as awake as before when only a context outside it changes. */
  lemma ElsewhereAwake(c: Config, s: State, r: State, i: nat)
    requires QueueShape(s.ios, s.seekQueue) && i < |s.ios| == |r.ios| && !Waiting(s.ios[i])
    requires r.ios == s.ios[i := r.ios[i]] && r.seekQueue == s.seekQueue && r.pos == s.pos
    ensures (forall j :: 0 <= j < |r.seekQueue| ==> r.seekQueue[j] < |r.ios|) && (Stuck(c, r) <==> Stuck(c, s))
  {
    assert i !in s.seekQueue;
  }

  lemma SeekStaysHalted(c: Config, s: State, i: nat, env: Env)
    requires c.mode.SparseBdev? && i < |s.ios| && c.inStart <= s.pos && c.outBs > 0 && Halted(s)
    ensures Halted(TargetSeek(c, s, i, env))
  {
  }

  lemma TransferDoneAwake(c: Config, s: State, i: nat, flagged: bool, env: Env)
    requires Ordered(c, s) && Wakes(c, |s.ios|) && !NoData(c) && !Halted(s) && Awake(c, s)
    requires i < |s.ios| && InChain(s.ios[i])
    ensures var r := DdModel.Complete(c, s, i, flagged, env);
      !Halted(r) ==> (forall j :: 0 <= j < |r.seekQueue| ==> r.seekQueue[j] < |r.ios|) && Awake(c, r)
  {
    hide Multiple, RoundUp, Ledger, InBlocks, GoodIos, NextData, NextHole, Sub64, Live, TargetSeek,
      Sum, Stuck, Measure;
    OutstandingPositive(c, s, i);
    NotStuck(c, s);
    var r := DdModel.Complete(c, s, i, flagged, env);
    if flagged {
      SeekStaysHalted(c, Park(s, i).(outstanding := s.outstanding - 1, error := -ENOSPC), i, env);
    } else {
      ParkKeeps(c, s, i, s.error);
      var t := Park(s, i).(outstanding := s.outstanding - 1);
      ElsewhereAwake(c, s, t, i);
      Elsewhere(s.ios, s.seekQueue, i, t.ios[i]);
      if s.ios[i].stage.Writing? {
        SeekAwake(c, t, i, env);
      } else {
        ElsewhereAwake(c, t, r, i);
        ParkedIsRanged(c, s, i);
        if s.ios[i].stage.Populating? { ReadKeeps(c, t, i, env.rc); } else { WriteKeeps(c, t, i, env.rc); }
      }
    }
  }

  /** With two contexts, a seek that finds nothing and leaves one waiting was the
      last operation in flight. */
  lemma LastSeek(ios: seq<Io>, queue: seq<nat>, i: nat)
    requires QueueShape(ios, queue) && queue != [] && |ios| <= 2
    requires i < |ios| && ios[i].stage.Idle? && ios[queue[0]].stage.Queued?
    ensures Sum(Flying, ios) == 0
  {
    FlyingBounds(ios);
  }

  lemma FinalizeAwake(c: Config, s: State, i: nat, endErr: int)
    requires QueueShape(s.ios, s.seekQueue) && !HeadSeeks(s) && s.exits == [] && s.outstanding >= 0
    requires s.outstanding == Sum(Flying, s.ios) && i < |s.ios| && s.ios[i].stage.Idle?
    ensures var r := FinalizeOutput(c, s, endErr);
      (forall j :: 0 <= j < |r.seekQueue| ==> r.seekQueue[j] < |r.ios|) && Awake(c, r)
  {
    hide Sum, Extend;
    if |s.ios| <= 2 && s.seekQueue != [] { LastSeek(s.ios, s.seekQueue, i); }
  }

  lemma HoleSeekAwake(c: Config, s: State, u: State, i: nat)
    requires QueueShape(s.ios, s.seekQueue) && s.seekQueue != [] && s.seekQueue[0] == i < |s.ios|
    requires u.seekQueue == s.seekQueue && |u.ios| == |s.ios| && u.outstanding >= 0
    ensures var r := Submit(u, i, SeekingHole);
      (forall j :: 0 <= j < |r.seekQueue| ==> r.seekQueue[j] < |r.ios|) && Awake(c, r)
  {
  }

  lemma SeekDataAwake(c: Config, s: State, i: nat, env: Env)
    requires Ordered(c, s) && !Halted(s) && Awake(c, s)
    requires i < |s.ios| && s.ios[i].stage.SeekingData? && s.seekQueue != []
    ensures var r := SeekDataDone(c, s, i, env);
      !Halted(r) ==> (forall j :: 0 <= j < |r.seekQueue| ==> r.seekQueue[j] < |r.ios|) && Awake(c, r)
  {
    hide Multiple, RoundUp, Ledger, InBlocks, GoodIos, NextData, NextHole, Sub64, Sum, Measure,
      FinalizeOutput, Awake, QueueShape, Accounted, Live;
    OnBlock(c, s);
    LeaveQueue(c, s, i);
    var t := Park(s, i).(outstanding := s.outstanding - 1, seekQueue := s.seekQueue[1..]);
    var next := NextData(c.data, s.pos);
    if next.None? {
      FinalizeAwake(c, t, i, env.endErr);
    } else if env.seekRc == 0 {
      var u := Park(s, i).(outstanding := s.outstanding - 1, pos := (next.value / c.inBs) * c.inBs);
      SeekerIsHead(s.ios, s.seekQueue, i);
      HoleSeekAwake(c, s, u, i);
    }
  }

  lemma StartNextAwake(c: Config, s: State, seekRc: int)
    requires ValidConfig(c) && c.mode.SparseBdev? && !Halted(s) && s.outstanding > 0
    requires QueueShape(s.ios, s.seekQueue)
    ensures var r := StartNextSeek(c, s, seekRc);
      !Halted(r) ==> (forall j :: 0 <= j < |r.seekQueue| ==> r.seekQueue[j] < |r.ios|) && Awake(c, r)
  {
    hide Multiple, RoundUp;
  }

  lemma SeekHoleAwake(c: Config, s: State, i: nat, env: Env)
    requires Ordered(c, s) && !Halted(s) && Shape(c, s)
    requires i < |s.ios| && s.ios[i].stage.SeekingHole? && s.seekQueue != []
    ensures var r := SeekHoleDone(c, s, i, env);
      !Halted(r) ==> (forall j :: 0 <= j < |r.seekQueue| ==> r.seekQueue[j] < |r.ios|) && Awake(c, r)
  {
    hide Multiple, RoundUp, Ledger, Sum, GoodIos, InBlocks, Sub64, NextHole, PopulateBuffer,
      StartNextSeek, XferLen, Awake, Accounted, QueueShape, ChunkLength;
    BlockStart(s.pos, c.inBs);
    LeaveQueue(c, s, i);
    var t := Park(s, i).(outstanding := s.outstanding - 1, seekQueue := s.seekQueue[1..]);
    var n := HoleLength(c, s.pos);
    var u := WithLength(t, i, n);
    assert WithLength(Park(s, i), i, n).(outstanding := s.outstanding - 1, seekQueue := s.seekQueue[1..]) == u;
    assert DataAt(c, s.pos) by { SeekerIsHead(s.ios, s.seekQueue, i); }
    PopulatedAwake(c, t, i, n, env);
  }

  /** Taking the chunk leaves a transfer in flight, and the next seek if one waits. */
  lemma PopulatedAwake(c: Config, s: State, i: nat, n: nat, env: Env)
    requires Base(c, s) && QueueShape(s.ios, s.seekQueue) && !HeadSeeks(s)
    requires Held(c, s, i) && !Halted(s) && s.exits == [] && s.outstanding >= 0
    requires s.pos < End(c) && DataAt(c, s.pos) && Multiple(s.pos, c.inBs) && ChunkLength(c, s.pos, n)
    ensures var p := PopulateBuffer(c, WithLength(s, i, n), i, env.rc);
      && (p.seekQueue != [] ==> p.seekQueue[0] < |p.ios|)
      && var r := StartNextSeek(c, p, env.seekRc);
         !Halted(r) ==> (forall j :: 0 <= j < |r.seekQueue| ==> r.seekQueue[j] < |r.ios|) && Awake(c, r)
  {
    hide Multiple, RoundUp, Ledger, Sum, GoodIos, InBlocks, Sub64, NextHole, PopulateBuffer,
      StartNextSeek, Awake, Accounted, ChunkLength;
    var u := WithLength(s, i, n);
    HoleChunk(c, s, i, n, env.rc);
    ChunkBounds(c, u, i);
    PopulateEffect(c, u, i, env.rc);
    var p := PopulateBuffer(c, u, i, env.rc);
    if !Halted(p) { StartNextAwake(c, p, env.seekRc); } else { StartNextHalted(c, p, env.seekRc); }
  }

  lemma StartNextHalted(c: Config, s: State, seekRc: int)
    requires Halted(s) && (s.seekQueue != [] ==> s.seekQueue[0] < |s.ios|)
    ensures Halted(StartNextSeek(c, s, seekRc))
  {
  }

  lemma StepAwake(c: Config, s: State, e: Event)
    requires Ordered(c, s) && Wakes(c, |s.ios|) && !NoData(c) && Shape(c, s) && Enabled(c, s, e) && (!Halted(s) ==> Awake(c, s))
    ensures var r := Step(c, s, e);
      !Halted(r) ==> (forall j :: 0 <= j < |r.seekQueue| ==> r.seekQueue[j] < |r.ios|) && Awake(c, r)
  {
    hide Multiple, RoundUp, Ledger, InBlocks, GoodIos, NextData, NextHole, Sub64, Sum, Measure,
      DdModel.Complete, SeekHoleDone, SeekDataDone, XferLen;
    if Halted(s) {
      StepStaysHalted(c, s, e);
    } else {
      match e
      case Transfer(i, k) => ElsewhereAwake(c, s, Step(c, s, e), i);
      case Completion(i, flagged, env) => TransferDoneAwake(c, s, i, flagged, env);
      case SeekDone(i, env) =>
        if s.ios[i].stage.SeekingHole? { SeekHoleAwake(c, s, i, env); } else { SeekDataAwake(c, s, i, env); }
      case Tick =>
      case Interrupt =>
    }
  }

  lemma StepStaysHalted(c: Config, s: State, e: Event)
    requires c.mode.SparseBdev? && Shape(c, s) && Enabled(c, s, e) && Halted(s)
    ensures Halted(Step(c, s, e))
  {
    hide Multiple, RoundUp, Sub64, NextHole, NextData, PopulateBuffer, XferLen, SeekFile, SeekBdev;
  }

  lemma {:induction false} RunAwake(c: Config, s: State, events: seq<Event>)
    requires Ordered(c, s) && Wakes(c, |s.ios|) && !NoData(c) && (!Halted(s) ==> Awake(c, s)) && CanRun(c, s, events)
    ensures var r := Run(c, s, events); !Halted(r) && r.outstanding == 0 ==> r.exits != []
    decreases |events|
  {
    hide Step, Shape, Enabled, BdevConfig, Ledger, Accounted, Live, Stuck;
    if events != [] {
      StepOrdered(c, s, events[0]);
      StepAwake(c, s, events[0]);
      RunAwake(c, Step(c, s, events[0]), events[1..]);
    }
  }

  /** Without data nothing is ever copied, and the first seek that ends calls
      `dd_exit`. */
  ghost predicate Barren(s: State)
    requires forall j :: 0 <= j < |s.seekQueue| ==> s.seekQueue[j] < |s.ios|
  {
    && (forall i :: 0 <= i < |s.ios| ==> !InChain(s.ios[i]))
    && (s.exits == [] ==> HeadSeeks(s))
  }

  /** A data seek that ends with no data in the region was the only operation in flight. */
  lemma OnlySeek(ios: seq<Io>, queue: seq<nat>)
    requires QueueShape(ios, queue) && (queue != [] ==> !Seeking(ios[queue[0]]))
    requires forall i :: 0 <= i < |ios| ==> !InChain(ios[i])
    ensures Sum(Flying, ios) == 0
  {
    FlyingBounds(ios);
    forall i | 0 <= i < |ios| ensures !InFlight(ios[i]) {
      if Seeking(ios[i]) { SeekerIsHead(ios, queue, i); }
    }
  }

  lemma SeekBarren(c: Config, s: State, i: nat, env: Env)
    requires Ordered(c, s) && NoData(c) && !Halted(s) && Barren(s)
    requires Shape(c, s) && Enabled(c, s, SeekDone(i, env))
    ensures var r := Step(c, s, SeekDone(i, env));
      (forall j :: 0 <= j < |r.seekQueue| ==> r.seekQueue[j] < |r.ios|) && Barren(r)
  {
    hide Multiple, RoundUp, Ledger, InBlocks, GoodIos, NextData, NextHole, Sum, SeekHoleDone, XferLen, Accounted, Extend;
    SeekerIsHead(s.ios, s.seekQueue, i);
    BlockStart(s.pos, c.inBs);
    LeaveQueue(c, s, i);
    var t := Park(s, i).(outstanding := s.outstanding - 1, seekQueue := s.seekQueue[1..]);
    OnlySeek(t.ios, t.seekQueue);
  }

  lemma {:induction false} RunBarren(c: Config, s: State, events: seq<Event>)
    requires Ordered(c, s) && NoData(c) && (!Halted(s) ==> Barren(s)) && CanRun(c, s, events)
    ensures var r := Run(c, s, events); !Halted(r) && r.outstanding == 0 ==> r.exits != []
    decreases |events|
  {
    hide Multiple, RoundUp, Ledger, InBlocks, GoodIos, NextData, NextHole, Sum, SeekHoleDone, SeekDataDone, DdModel.Complete,
      Live, XferLen;
    if events == [] {
      FlyingBounds(s.ios);
    } else {
      StepOrdered(c, s, events[0]);
      if Halted(s) {
        StepStaysHalted(c, s, events[0]);
      } else if events[0].SeekDone? {
        SeekBarren(c, s, events[0].i, events[0].env);
      }
      RunBarren(c, Step(c, s, events[0]), events[1..]);
    }
  }

  /** The launch has left a seek in flight, or found nothing to do. */
  ghost predicate Started(c: Config, s: State)
    requires c.inStart <= s.pos
  {
    && (forall i :: 0 <= i < |s.ios| ==> !InChain(s.ios[i]))
    && (forall j :: 0 <= j < |s.seekQueue| ==> s.seekQueue[j] < |s.ios|)
    && (if s.seekQueue == [] then Remaining(c, s) == 0 && s.exits != [] else HeadSeeks(s) && s.outstanding > 0)
  }

  lemma SeekStarts(c: Config, s: State, i: nat, env: Env)
    requires ValidConfig(c) && c.mode.SparseBdev? && c.inStart <= s.pos && i < |s.ios| && i !in s.seekQueue
    requires forall j :: 0 <= j < |s.ios| ==> !InChain(s.ios[j])
    requires (s.outstanding == 0 && s.exits == [] && s.seekQueue == []) || (!Halted(s) ==> Started(c, s))
    ensures var r := TargetSeek(c, s, i, env);
      (forall j :: 0 <= j < |r.ios| ==> !InChain(r.ios[j])) && (!Halted(r) ==> Started(c, r))
  {
    hide Multiple, RoundUp, Sub64, SeekFile, PopulateBuffer;
  }

  lemma {:induction false} LaunchStarts(c: Config, s: State, envs: seq<Env>, n: nat)
    requires BdevConfig(c) && Init(c, s) && 1 <= n <= |s.ios| == |envs|
    ensures var r := Launch(c, s, envs, n);
      (forall i :: 0 <= i < |r.ios| ==> !InChain(r.ios[i])) && (!Halted(r) ==> Started(c, r))
  {
    hide Multiple, RoundUp, InBlocks, Sub64, Ledger, Live, Accounted, TargetSeek, Started;
    LaunchOrdered(c, s, envs, n - 1);
    var t := Launch(c, s, envs, n - 1);
    assert t.ios[n - 1] == s.ios[n - 1];
    if n > 1 { LaunchStarts(c, s, envs, n - 1); }
    SeekStarts(c, t, n - 1, envs[n - 1]);
  }

  /** With at most two contexts, without data, or when the input ends with data, a
      sparse copy from a bdev that has nothing left in flight and no error has called
      `dd_exit`. */
  lemma BdevQuiescentRunHasExited(c: Config, s: State, envs: seq<Env>, events: seq<Event>)
    requires BdevRun(c, s, envs, events) && |s.ios| >= 1 && Wakes(c, |s.ios|)
    ensures var r := BdevOutcome(c, s, envs, events); !Halted(r) && r.outstanding == 0 ==> r.exits != []
  {
    hide Multiple, RoundUp, InBlocks, Ordered, Launch, CanRun, Stuck, Awake, Barren, Started, NoData;
    var t := Launch(c, s, envs, |s.ios|);
    LaunchOrdered(c, s, envs, |s.ios|);
    LaunchStarts(c, s, envs, |s.ios|);
    if !Halted(t) { StartedIsAwake(c, t); }
    if NoData(c) { RunBarren(c, t, events); } else { RunAwake(c, t, events); }
  }

  lemma StartedIsAwake(c: Config, s: State)
    requires ValidConfig(c) && c.inStart <= s.pos && Started(c, s)
    ensures Awake(c, s) && Barren(s)
  {
  }

  // ------------------------------------------------ three contexts and a final hole

  /** The device finishes the transfers of context `i`, which then joins the queue. */
  lemma {:induction false} Drive(c: Config, s: State, i: nat) returns (events: seq<Event>, r: State)
    requires Ordered(c, s) && !Halted(s) && s.seekQueue != [] && s.pos < End(c) && i < |s.ios| && InChain(s.ios[i])
    ensures Reaches(c, s, events, r) && Ordered(c, r) && !Halted(r)
    ensures r.exits == s.exits && r.pos == s.pos && r.outstanding == s.outstanding - 1
    ensures r.seekQueue == s.seekQueue + [i] && |r.ios| == |s.ios| && r.ios == s.ios[i := r.ios[i]]
    decreases Weigh(Rank(c.unit), s.ios[i])
  {
    hide Ordered, Shape, Enabled, Faithful, Step, Run, CanRun, FaithfulRun, Halted;
    assert GoodChain(c, s.ios[i]) by { ChainIsGood(c, s, i); }
    OrderedMode(c, s);
    OrderedShape(c, s);
    var e := NextEvent(c, s, i);
    StepOrdered(c, s, e);
    StepStaysHealthy(c, s, e);
    DriveStep(c, s, i, e);
    var t := Step(c, s, e);
    var rest: seq<Event>;
    if InChain(t.ios[i]) {
      assert GoodChain(c, t.ios[i]) by { ChainIsGood(c, t, i); }
      rest, r := Drive(c, t, i);
    } else {
      rest, r := [], t;
      assert Reaches(c, t, [], t) by { NoEvents(c, t); }
    }
    ReachesFirst(c, s, e, rest, r);
    events := [e] + rest;
  }

  lemma NoEvents(c: Config, s: State)
    ensures Reaches(c, s, [], s)
  {
  }

  ghost predicate GoodChain(c: Config, io: Io) {
    InChain(io) && |io.done| <= c.unit
  }

  lemma ChainIsGood(c: Config, s: State, i: nat)
    requires Ordered(c, s) && i < |s.ios| && InChain(s.ios[i])
    ensures GoodChain(c, s.ios[i])
  {
    hide Ledger, BdevConfig, QueueShape, Live, Sum, RoundUp, Multiple;
    RankBounds(c, s.ios[i]);
  }

  /** One step of the transfers of context `i` uses up its rank, or is the last. */
  lemma DriveStep(c: Config, s: State, i: nat, e: Event)
    requires c.mode.SparseBdev? && ValidConfig(c) && !Halted(s) && s.seekQueue != [] && c.inStart <= s.pos < End(c)
    requires i < |s.ios| && GoodChain(c, s.ios[i]) && Shape(c, s) && Enabled(c, s, e)
    requires (e.Transfer? && e.i == i) || e == Completion(i, false, ACCEPTED)
    ensures var t := Step(c, s, e);
      && |t.ios| == |s.ios| && t.ios == s.ios[i := t.ios[i]] && t.exits == s.exits && t.pos == s.pos
      && (if InChain(t.ios[i])
          then t.outstanding == s.outstanding && t.seekQueue == s.seekQueue
            && 0 <= Weigh(Rank(c.unit), t.ios[i]) < Weigh(Rank(c.unit), s.ios[i])
          else t.outstanding == s.outstanding - 1 && t.seekQueue == s.seekQueue + [i])
  {
    hide Multiple, RoundUp, Sub64, NextHole, NextData, PopulateBuffer, SeekFile, DdModel.Complete, XferLen;
    if e.Completion? { DriveCompletion(c, s, i); }
  }

  lemma DriveCompletion(c: Config, s: State, i: nat)
    requires c.mode.SparseBdev? && ValidConfig(c) && !Halted(s) && s.seekQueue != [] && c.inStart <= s.pos < End(c)
    requires i < |s.ios| && GoodChain(c, s.ios[i])
    ensures var t := DdModel.Complete(c, s, i, false, ACCEPTED);
      && |t.ios| == |s.ios| && t.ios == s.ios[i := t.ios[i]] && t.exits == s.exits && t.pos == s.pos
      && (if InChain(t.ios[i])
          then t.outstanding == s.outstanding && t.seekQueue == s.seekQueue
            && 0 <= Weigh(Rank(c.unit), t.ios[i]) < Weigh(Rank(c.unit), s.ios[i])
          else t.outstanding == s.outstanding - 1 && t.seekQueue == s.seekQueue + [i])
  {
    hide Multiple, RoundUp, Sub64, NextHole, NextData, PopulateBuffer, SeekFile;
    RemainingZero(c, s);
  }

  /** The input ends with a hole. */
  ghost predicate FinalHole(c: Config) {
    |c.data| > 0 && !c.data[|c.data| - 1]
  }

  /** Without an error, `count` operations are in flight and `queue` waits. */
  ghost predicate Going(c: Config, s: State, queue: seq<nat>, count: nat) {
    && Ordered(c, s) && !Halted(s) && s.exits == [] && s.outstanding == count && s.seekQueue == queue
    && forall j :: 0 <= j < |queue| ==> queue[j] < |s.ios|
  }

  /** The data seek at the head of the queue finds data. */
  lemma FindData(c: Config, s: State)
    requires s.seekQueue != [] && Going(c, s, s.seekQueue, 1) && s.ios[s.seekQueue[0]].stage.SeekingData?
    requires Shape(c, s) && NextData(c.data, s.pos).Some?
    ensures var e := SeekDone(s.seekQueue[0], ACCEPTED);
      && Enabled(c, s, e) && Faithful(c, s, e)
      && var r := Step(c, s, e);
         && Going(c, r, s.seekQueue, 1) && r.ios[s.seekQueue[0]].stage.SeekingHole?
         && |r.ios| == |s.ios| && s.pos <= r.pos
  {
    hide Multiple, RoundUp, NextData, Ordered, Sub64, XferLen, SeekHoleDone;
    var e := SeekDone(s.seekQueue[0], ACCEPTED);
    StepOrdered(c, s, e);
    CursorNeverGoesBack(c, s, e);
    OnBlock(c, s);
  }

  lemma OnBlock(c: Config, s: State)
    requires Ordered(c, s) && !Halted(s)
    ensures c.inBs > 0 && (s.pos / c.inBs) * c.inBs == s.pos
  {
    hide Ledger, QueueShape, Sum, GoodIos, InBlocks, Accounted, NextData;
    BlockStart(s.pos, c.inBs);
  }

  lemma PopulateAccepted(c: Config, s: State, i: nat)
    requires ValidConfig(c) && c.inStart <= s.pos && i < |s.ios| && !Halted(s) && Aim(c, s, i).ios[i].length > 0
    ensures var r := PopulateBuffer(c, s, i, 0); !Halted(r) && InChain(r.ios[i])
  {
    hide Multiple, RoundUp, Sub64, Remaining;
  }

  /** A chunk of data ends before a final hole. */
  lemma ChunkBeforeHole(c: Config, s: State, i: nat)
    requires ValidConfig(c) && c.mode.SparseBdev? && FinalHole(c) && i < |s.ios| && c.inStart <= s.pos < End(c)
    requires DataAt(c, s.pos) && ChunkLength(c, s.pos, s.ios[i].length)
    ensures var n := Aim(c, s, i).ios[i].length; n > 0 && s.pos + n < End(c)
  {
    hide Multiple, RoundUp, Sub64, NextHole, ChunkLength;
    ChunkBounds(c, s, i);
    ChunkClaimable(c, s, i);
    assert Wanted(c, s.pos + Aim(c, s, i).ios[i].length - 1);
  }

  /** The parts of `_dd_bdev_seek_hole_done` without an error: the context that has left
      the queue, and the state in which it has taken its chunk. */
  function Left(s: State, i: nat): State
    requires i < |s.ios| && s.seekQueue != []
  {
    Park(s, i).(outstanding := s.outstanding - 1, seekQueue := s.seekQueue[1..])
  }

  function Chosen(c: Config, s: State, i: nat): State
    requires i < |s.ios| && s.seekQueue != [] && s.pos <= |c.data|
  {
    WithLength(Left(s, i), i, HoleLength(c, s.pos))
  }

  lemma HoleSeekParts(c: Config, s: State, i: nat, env: Env)
    requires Ordered(c, s) && Shape(c, s) && !Halted(s) && i < |s.ios| && s.ios[i].stage.SeekingHole?
    ensures s.seekQueue != [] && s.seekQueue[0] == i && c.inStart <= s.pos < End(c) == |c.input| && ValidConfig(c)
    ensures var u := Chosen(c, s, i);
      && u.ios[i].stage.Idle? && !Halted(u) && u.exits == [] && DataAt(c, u.pos) && ChunkLength(c, u.pos, u.ios[i].length)
      && 0 < Aim(c, u, i).ios[i].length && s.pos + Aim(c, u, i).ios[i].length <= End(c)
      && var p := PopulateBuffer(c, u, i, env.rc);
         && QueueShape(p.ios, p.seekQueue) && !HeadSeeks(p) && Accounted(c, p) && p.seekQueue == s.seekQueue[1..]
         && SeekHoleDone(c, s, i, env) == StartNextSeek(c, p, env.seekRc)
  {
    hide Multiple, RoundUp, Ledger, Sum, GoodIos, InBlocks, Sub64, NextHole, PopulateBuffer, XferLen, ChunkLength, StartNextSeek;
    OnBlock(c, s);
    SeekerIsHead(s.ios, s.seekQueue, i);
    LeaveQueue(c, s, i);
    OrderedMode(c, s);
    var n := HoleLength(c, s.pos);
    HoleChunk(c, Left(s, i), i, n, env.rc);
    ChunkBounds(c, Chosen(c, s, i), i);
    assert WithLength(Park(s, i), i, n).(outstanding := s.outstanding - 1, seekQueue := s.seekQueue[1..]) == Chosen(c, s, i);
  }

  /** The hole seek at the head of the queue ends: its context takes the chunk, and the
      next one starts to seek. */
  lemma TakeData(c: Config, s: State)
    requires |s.seekQueue| >= 2 && Going(c, s, s.seekQueue, 1) && s.ios[s.seekQueue[0]].stage.SeekingHole?
    requires Shape(c, s) && FinalHole(c)
    ensures var e := SeekDone(s.seekQueue[0], ACCEPTED);
      && Enabled(c, s, e) && Faithful(c, s, e)
      && var r := Step(c, s, e);
         && Going(c, r, s.seekQueue[1..], 2) && |r.ios| == |s.ios| && s.pos < r.pos < End(c)
         && InChain(r.ios[s.seekQueue[0]]) && r.ios[s.seekQueue[1]].stage.SeekingData?
  {
    hide Ordered, Multiple, RoundUp, Sub64, NextHole, PopulateBuffer, XferLen, ChunkLength, Accounted, QueueShape, SeekHoleDone,
      Remaining;
    var i := s.seekQueue[0];
    var e := SeekDone(i, ACCEPTED);
    StepOrdered(c, s, e);
    OrderedMode(c, s);
    HoleSeekParts(c, s, i, ACCEPTED);
    Distinct(c, s);
    var u := Chosen(c, s, i);
    ChunkBeforeHole(c, u, i);
    PopulateAccepted(c, u, i);
    PopulateEffect(c, u, i, 0);
    assert Step(c, s, e) == Submit(PopulateBuffer(c, u, i, 0), s.seekQueue[1], SeekingData);
  }

  /** The data seek at the head of the queue finds nothing while a transfer is in
      flight: its context gives up, and nobody starts the next seek. */
  lemma GiveUp(c: Config, s: State)
    requires |s.seekQueue| >= 2 && Going(c, s, s.seekQueue, 2) && s.ios[s.seekQueue[0]].stage.SeekingData?
    requires Shape(c, s) && NextData(c.data, s.pos).None?
    ensures var e := SeekDone(s.seekQueue[0], ACCEPTED);
      && Enabled(c, s, e) && Faithful(c, s, e)
      && var r := Step(c, s, e);
         Going(c, r, s.seekQueue[1..], 1) && r.pos == s.pos && r.ios == Park(s, s.seekQueue[0]).ios
  {
    hide Multiple, RoundUp, NextData, Ordered, Sub64, XferLen, SeekHoleDone, Extend;
    StepOrdered(c, s, SeekDone(s.seekQueue[0], ACCEPTED));
    OnBlock(c, s);
  }

  /** All contexts but the one that seeks are queued, and there is data left. */
  ghost predicate Lined(c: Config, s: State) {
    && |s.ios| == |s.seekQueue| >= 3 && Going(c, s, s.seekQueue, 1)
    && s.ios[s.seekQueue[0]].stage.SeekingData? && NextData(c.data, s.pos).Some?
  }

  /** Chunk by chunk the contexts take turns, until the last chunk is being copied while
      the next seek finds nothing. */
  lemma {:induction false} HangFrom(c: Config, s: State) returns (events: seq<Event>, r: State)
    requires Lined(c, s) && FinalHole(c)
    ensures Reaches(c, s, events, r) && r.outstanding == 0 && r.exits == [] && !Halted(r)
    decreases |c.input| - s.pos
  {
    hide Ordered, Shape, Enabled, Faithful, Step, Reaches, NextData, Halted;
    var queue := s.seekQueue;
    var first, second := queue[0], queue[1];
    var e := SeekDone(first, ACCEPTED);
    OrderedShape(c, s);
    FindData(c, s);
    var t := Step(c, s, e);
    OrderedShape(c, t);
    TakeData(c, t);
    var u := Step(c, t, e);
    OrderedShape(c, u);
    OrderedMode(c, u);
    assert second != first by { Distinct(c, s); }
    var rest: seq<Event>;
    if NextData(c.data, u.pos).Some? {
      var a, v := Drive(c, u, first);
      var b;
      b, r := HangFrom(c, v);
      ReachesThen(c, u, a, v, b, r);
      rest := a + b;
    } else {
      GiveUp(c, u);
      var w := Step(c, u, SeekDone(second, ACCEPTED));
      var a;
      a, r := Drive(c, w, first);
      ReachesFirst(c, u, SeekDone(second, ACCEPTED), a, r);
      rest := [SeekDone(second, ACCEPTED)] + a;
    }
    ReachesFirst(c, t, e, rest, r);
    ReachesFirst(c, s, e, [e] + rest, r);
    events := [e] + ([e] + rest);
  }

  lemma Distinct(c: Config, s: State)
    requires Ordered(c, s) && |s.seekQueue| >= 2
    ensures s.seekQueue[0] != s.seekQueue[1]
  {
    hide Base, Accounted, Live, Sum;
  }

  /** After the launch of `k` contexts the first one seeks and the others wait. */
  lemma {:induction false} LaunchLines(c: Config, s: State, k: nat)
    requires BdevConfig(c) && c.copySize > 0 && Init(c, s) && !s.interrupt && 1 <= k <= |s.ios|
    ensures var r := Launch(c, s, Accepting(|s.ios|), k);
      && !Halted(r) && r.exits == [] && r.outstanding == 1 && r.pos == s.pos
      && |r.seekQueue| == k && r.seekQueue[0] == 0 && r.ios[0].stage.SeekingData?
  {
    hide Multiple, RoundUp, InBlocks, PopulateBuffer, SeekFile, Sub64;
    RemainingAtStart(c, s);
    if k > 1 {
      LaunchLines(c, s, k - 1);
    } else {
      assert Launch(c, s, Accepting(|s.ios|), 0) == s;
    }
  }

  /** Every copy can fail like that: an interrupt right after a launch in which all went
      well leads to no `dd_exit`, however the run goes on. */
  lemma InterruptedLaunchNeverExits(c: Config, s: State, events: seq<Event>)
    requires c.copySize > 0 && |s.ios| >= 1 && !s.interrupt
    requires BdevRun(c, s, Accepting(|s.ios|), [Interrupt] + events)
    ensures BdevOutcome(c, s, Accepting(|s.ios|), [Interrupt] + events).exits == []
  {
    hide Ordered, Launch, InBlocks, Shape, Step;
    var t := Launch(c, s, Accepting(|s.ios|), |s.ios|);
    LaunchLines(c, s, |s.ios|);
    LaunchOrdered(c, s, Accepting(|s.ios|), |s.ios|);
    assert ([Interrupt] + events)[1..] == events;
    InterruptDuringSeekNeverExits(c, t, 0, events);
  }

  /** Three or more contexts, some data, and a hole at the end: a run without any error,
      whose transfers all happen, that comes to rest without `dd_exit`. */
  lemma HangingRun(c: Config, s: State) returns (envs: seq<Env>, events: seq<Event>)
    requires BdevConfig(c) && Init(c, s) && !s.interrupt && !Wakes(c, |s.ios|)
    ensures BdevRun(c, s, envs, events) && FaithfulRun(c, Launch(c, s, envs, |s.ios|), events)
    ensures var r := BdevOutcome(c, s, envs, events); r.outstanding == 0 && r.exits == [] && !Halted(r)
  {
    hide Ordered, Launch, NextData, InBlocks, Run, CanRun, FaithfulRun;
    envs := Accepting(|s.ios|);
    LaunchLines(c, s, |s.ios|);
    LaunchOrdered(c, s, envs, |s.ios|);
    var t := Launch(c, s, envs, |s.ios|);
    OrderedShape(c, t);
    var r;
    events, r := HangFrom(c, t);
  }

  ghost predicate AlwaysExits(c: Config, n: nat) {
    forall s: State, envs: seq<Env>, events: seq<Event> ::
      |s.ios| == n && BdevRun(c, s, envs, events) ==>
        var r := BdevOutcome(c, s, envs, events); !Halted(r) && r.outstanding == 0 ==> r.exits != []
  }

  /** For every sparse copy from a bdev: all its runs that come to rest without an error
      have called `dd_exit` if and only if it has at most two contexts, no data in its
      region, or data at the very end. */
  lemma AlwaysExitsIff(c: Config, n: nat)
    requires BdevConfig(c) && n >= 1
    ensures AlwaysExits(c, n) <==> Wakes(c, n)
  {
    hide Wakes, InBlocks, Launch, CanRun, Run, NextData;
    if Wakes(c, n) {
      forall s: State, envs: seq<Env>, events: seq<Event> | |s.ios| == n && BdevRun(c, s, envs, events)
        ensures var r := BdevOutcome(c, s, envs, events); !Halted(r) && r.outstanding == 0 ==> r.exits != []
      {
        BdevQuiescentRunHasExited(c, s, envs, events);
      }
    } else {
      var s := Initial(c, n, []);
      var envs, events := HangingRun(c, s);
      assert BdevRun(c, s, envs, events);
    }
  }

  // ----------------------------------------------------- a request that can hang

  /** `n` blocks of 512 bytes, the first of them data, copied one by one. */
  function OneBlock(n: nat): Config {
    Config(512, 0, 0, 512 * n, 512, 512, SparseBdev, false, seq(512 * n, _ => 0), seq(512 * n, i => i < 512))
  }

  lemma OneBlockHangs(n: nat)
    requires 3 <= n < 0x1_0000_0000
    ensures BdevConfig(OneBlock(n)) && !Wakes(OneBlock(n), n)
  {
    var c := OneBlock(n);
    MultipleMod(n, 512);
    assert n * 512 == 512 * n;
    assert c.data[0];
    assert forall p :: 0 < p < |c.data| && c.data[p] != c.data[p - 1] ==> p == 512;
  }

  /** The clamps leave all `n` contexts. */
  lemma OneBlockAccepted(n: nat)
    requires 3 <= n < 0x1_0000_0000
    ensures var t := DdSetup.BdevTarget(512, n);
      DdSetup.Prepare(DdSetup.Options(512, 0, 0, 0, n), t, t) == DdSetup.Ready(0, 0, 512 * n, n, 512, 512)
  {
    assert 512 * n / 512 == n;
  }

  /** For every queue depth from three on the program accepts a request that keeps that
      many contexts and can come to rest without `dd_exit`. */
  lemma ThreeContextsMayHang(n: nat)
    returns (o: DdSetup.Options, t: DdSetup.Target, c: Config, s: State, envs: seq<Env>, events: seq<Event>)
    requires 3 <= n < 0x1_0000_0000
    ensures o.unit > 0
    ensures DdSetup.Prepare(o, t, t) == DdSetup.Ready(c.inStart, c.outStart, c.copySize, n, c.inBs, c.outBs)
    ensures |s.ios| == n && BdevRun(c, s, envs, events) && FaithfulRun(c, Launch(c, s, envs, n), events)
    ensures var r := BdevOutcome(c, s, envs, events); r.outstanding == 0 && r.exits == [] && !Halted(r)
  {
    hide BdevConfig, Wakes, Launch, CanRun, Run, FaithfulRun, DdSetup.Prepare;
    o, t, c := DdSetup.Options(512, 0, 0, 0, n), DdSetup.BdevTarget(512, n), OneBlock(n);
    OneBlockAccepted(n);
    OneBlockHangs(n);
    s := Initial(c, n, []);
    envs, events := HangingRun(c, s);
  }
}
