/** What a copy reports, in all three modes and through all errors: the status it exits
    with, where an error comes from, the bytes it counts, and the order in which contexts
    that wait for a seek are served. After an error or an interrupt nothing is started. */
module DdReport {
  import opened Arith
  import opened ByteOrder
  import opened DdModel
  import opened DdAccounting
  import opened DdCopy
  import opened DdTally
  import opened DdSeekQueue
  import opened DdSeekHang
  import opened DdSeekRuns
  import opened DdRuns

  // ---------------------------------------------------------------- the exit status

  predicate NoChain(s: State) {
    forall i :: 0 <= i < |s.ios| ==> !InChain(s.ios[i])
  }

  /** The last status handed to `dd_exit` is the error, and no transfer is left then. */
  predicate Reported(s: State) {
    s.exits != [] ==> s.exits[|s.exits| - 1] == s.error && NoChain(s)
  }

  /** A callback of a state without `dd_exit` calls it once at most, with the error. */
  predicate ReportsOnce(r: State) {
    r.exits == [] || (r.exits == [r.error] && r.outstanding == 0)
  }

  lemma SeekReportsOnce(c: Config, s: State, i: nat, env: Env)
    requires i < |s.ios| && c.inStart <= s.pos && c.outBs > 0 && s.outstanding >= 0
    requires s.exits == []
    ensures ReportsOnce(TargetSeek(c, s, i, env))
  {
    hide RoundUp, Multiple, Sub64, NextData, NextHole, Extend, PopulateBuffer;
    if c.mode.Dense? {
      PopulateReportsOnce(c, s, i, env.rc);
    } else if c.mode.SparseFile? && NextData(c.data, s.pos).Some? {
      var t := s.(pos := NextData(c.data, s.pos).value);
      var hole := NextHole(c.data, t.pos);
      PopulateReportsOnce(c, WithLength(t, i, if hole > t.pos then Min(c.unit, hole - t.pos) else c.unit), i, env.rc);
    }
  }

  /** The launch: the contexts that follow exit with the same status. */
  lemma SeekReportsAgain(c: Config, s: State, i: nat, env: Env)
    requires i < |s.ios| && c.inStart <= s.pos && c.outBs > 0
    requires s.exits != [] && s.exits[|s.exits| - 1] == s.error && s.outstanding == 0
    ensures var r := TargetSeek(c, s, i, env); r.exits != [] && r.exits[|r.exits| - 1] == r.error
  {
    hide RoundUp, Multiple, Sub64, NextData, NextHole, Extend;
  }

  lemma CompleteReportsOnce(c: Config, s: State, i: nat, flagged: bool, env: Env)
    requires i < |s.ios| && InChain(s.ios[i]) && c.inStart <= s.pos && c.outBs > 0 && s.outstanding > 0 && s.exits == []
    ensures ReportsOnce(DdModel.Complete(c, s, i, flagged, env))
  {
    hide TargetSeek;
    var t := Park(s, i).(outstanding := s.outstanding - 1, error := if flagged then -ENOSPC else s.error);
    SeekReportsOnce(c, t, i, env);
  }

  lemma DataSeekReportsOnce(c: Config, s: State, i: nat, env: Env)
    requires i < |s.ios| && s.seekQueue != [] && c.inBs > 0 && !Halted(s) && s.outstanding > 0 && s.exits == []
    ensures ReportsOnce(SeekDataDone(c, s, i, env))
  {
    hide NextData, Extend;
  }

  lemma PopulateReportsOnce(c: Config, s: State, i: nat, rc: int)
    requires i < |s.ios| && c.inStart <= s.pos && c.outBs > 0 && s.outstanding >= 0 && s.exits == []
    ensures ReportsOnce(PopulateBuffer(c, s, i, rc))
  {
    hide RoundUp, Multiple, Sub64;
  }

  /** The start of the next seek reports its own refusal, after that of the transfer. */
  lemma StartNextReports(c: Config, s: State, seekRc: int)
    requires QueueShape(s.ios, s.seekQueue) && ReportsOnce(s) && s.outstanding == Sum(Flying, s.ios)
    ensures Reported(StartNextSeek(c, s, seekRc))
  {
    hide Sum;
    FlyingBounds(s.ios);
  }

  lemma HoleSeekReports(c: Config, s: State, i: nat, env: Env)
    requires Ordered(c, s) && Shape(c, s) && !Halted(s) && i < |s.ios| && s.ios[i].stage.SeekingHole? && s.seekQueue != []
    ensures Reported(SeekHoleDone(c, s, i, env))
  {
    hide Ordered, Shape, Multiple, RoundUp, NextHole, PopulateBuffer, GoodIos, SeekHoleDone, QueueShape, ChunkLength, Remaining,
      Sum, StartNextSeek, Reported;
    HoleSeekParts(c, s, i, env);
    OrderedPositive(c, s, i);
    PopulateReportsOnce(c, Chosen(c, s, i), i, env.rc);
    StartNextReports(c, PopulateBuffer(c, Chosen(c, s, i), i, env.rc), env.seekRc);
  }

  /** An operation in flight before `dd_exit`, or the seek that was started late. */
  lemma FlightBeforeExit(c: Config, s: State, i: nat)
    requires Steady(c, s) && i < |s.ios| && InFlight(s.ios[i]) && Reported(s)
    ensures s.outstanding > 0 && c.inStart <= s.pos && c.outBs > 0
    ensures InChain(s.ios[i]) || !Halted(s) ==> s.exits == []
  {
    hide QueueShape, Live, GoodIos, Sum, Ledger, InBlocks;
    SteadyCounts(c, s, i);
  }

  lemma QuietIsReported(c: Config, s: State)
    requires Steady(c, s) && ReportsOnce(s)
    ensures Reported(s)
  {
    hide QueueShape, Live, GoodIos, Sum, Base, Over;
    FlyingBounds(s.ios);
  }

  lemma StepReports(c: Config, s: State, e: Event)
    requires Steady(c, s) && Shape(c, s) && Enabled(c, s, e) && Reported(s)
    ensures Reported(Step(c, s, e))
  {
    hide Steady, XferLen, DdModel.Complete, SeekDataDone, SeekHoleDone;
    StepSteady(c, s, e);
    match e
    case Transfer(i, k) => FlightBeforeExit(c, s, i);
    case Completion(i, flagged, env) =>
      FlightBeforeExit(c, s, i);
      CompleteReportsOnce(c, s, i, flagged, env);
      QuietIsReported(c, Step(c, s, e));
    case SeekDone(i, env) =>
      FlightBeforeExit(c, s, i);
      SteadySeeks(c, s, i);
      if Halted(s) {
        HaltedSeekSpends(c, s, i, env);
        HaltedSeekKeepsError(c, s, i, env);
      } else if s.ios[i].stage.SeekingHole? {
        SteadyIsOrdered(c, s);
        HoleSeekReports(c, s, i, env);
      } else {
        DataSeekReportsOnce(c, s, i, env);
        QuietIsReported(c, Step(c, s, e));
      }
    case Tick =>
    case Interrupt =>
  }

  lemma SteadyIsOrdered(c: Config, s: State)
    requires Steady(c, s) && c.mode.SparseBdev?
    ensures Ordered(c, s)
  {
    hide Ordered;
  }

  lemma HaltedSeekKeepsError(c: Config, s: State, i: nat, env: Env)
    requires Shape(c, s) && Enabled(c, s, SeekDone(i, env)) && Halted(s)
    ensures Step(c, s, SeekDone(i, env)).error == s.error
  {
    hide Multiple, RoundUp, NextHole, NextData, Sub64, XferLen, PopulateBuffer;
  }

  lemma {:induction false} RunReports(c: Config, s: State, events: seq<Event>)
    requires Steady(c, s) && CanRun(c, s, events) && Reported(s)
    ensures Reported(Run(c, s, events))
    decreases |events|
  {
    hide Steady, Step, Shape, Enabled, Reported;
    if events != [] {
      StepSteady(c, s, events[0]);
      StepReports(c, s, events[0]);
      RunReports(c, Step(c, s, events[0]), events[1..]);
    }
  }

  /** After `n` contexts of the launch. */
  lemma {:induction false} LaunchReports(c: Config, s: State, envs: seq<Env>, n: nat)
    requires ValidConfig(c) && (c.mode.SparseBdev? ==> BdevConfig(c)) && Init(c, s) && n <= |s.ios| == |envs|
    ensures Reported(Launch(c, s, envs, n))
  {
    hide TargetSeek, InBlocks, Steady;
    if n > 0 {
      LaunchReports(c, s, envs, n - 1);
      var t := Launch(c, s, envs, n - 1);
      LaunchIsQuiet(c, s, envs, n - 1);
      LaunchIsQuiet(c, s, envs, n);
      if t.exits == [] { SeekReportsOnce(c, t, n - 1, envs[n - 1]); } else { SeekReportsAgain(c, t, n - 1, envs[n - 1]); }
    }
  }

  /** During the launch `dd_exit` is called only with nothing in flight. */
  lemma LaunchIsQuiet(c: Config, s: State, envs: seq<Env>, n: nat)
    requires ValidConfig(c) && (c.mode.SparseBdev? ==> BdevConfig(c)) && Init(c, s) && n <= |s.ios| == |envs|
    ensures var r := Launch(c, s, envs, n); r.outstanding >= 0 && (r.exits != [] ==> r.outstanding == 0 && NoChain(r))
  {
    hide Launch, InBlocks, Sum, Remaining, GoodIos, Live, QueueShape, Ledger, Over;
    var r := Launch(c, s, envs, n);
    if c.mode.SparseBdev? {
      LaunchOrdered(c, s, envs, n);
      LaunchNotLate(c, s, envs, n);
    } else {
      LaunchKeeps(c, s, envs, n);
    }
    FlyingBounds(r.ios);
  }

  /** In every state of every run that has called `dd_exit`, the status of the last call is
      the error, and no transfer is in flight. */
  lemma ExitStatusIsError(c: Config, s: State, envs: seq<Env>, events: seq<Event>)
    requires AnyRun(c, s, envs, events)
    ensures var r := AnyOutcome(c, s, envs, events);
      r.exits != [] ==> r.exits[|r.exits| - 1] == r.error && NoChain(r)
  {
    hide Launch, CanRun, InBlocks, Steady;
    LaunchSteady(c, s, envs, events);
    LaunchReports(c, s, envs, |s.ios|);
    RunReports(c, Launch(c, s, envs, |s.ios|), events);
  }

  // ------------------------------------------------------ where an error comes from

  /** The error that a context looking for work ends with: the answer it was given, if it
      was asked for; a failed `lseek` and a failed end of the output are noticed only by
      the last context. */
  function SeekError(c: Config, pos: nat, alone: bool, empty: bool, env: Env): int
    requires c.inStart <= pos
  {
    if Sub64(c.copySize, pos - c.inStart) == 0 then 0
    else match c.mode
    case Dense => env.rc
    case SparseBdev => if empty then env.seekRc else 0
    case SparseFile =>
      var next := NextData(c.data, pos);
      if env.dataErr != 0 then (if alone then env.dataErr else 0)
      else if next.None? then (if alone && c.toFile then env.endErr else 0)
      else if env.holeErr != 0 then (if alone then env.holeErr else 0)
      else if Sub64(c.copySize, next.value - c.inStart) == 0 then 0
      else env.rc
  }

  lemma SeekErrorIs(c: Config, s: State, i: nat, env: Env)
    requires InBounds(c, s) && i < |s.ios| && s.outstanding >= 0 && !Halted(s)
    ensures TargetSeek(c, s, i, env).error == SeekError(c, s.pos, s.outstanding == 0, s.seekQueue == [], env)
  {
    hide RoundUp, Multiple, Sub64, NextData, NextHole, Extend, GoodIo;
  }

  /** The error after an event that finds none. */
  function StepError(c: Config, s: State, e: Event): int
    requires Shape(c, s) && Enabled(c, s, e)
  {
    match e
    case Completion(i, flagged, env) =>
      if flagged then -ENOSPC
      else if s.ios[i].stage.Writing? then SeekError(c, s.pos, s.outstanding == 1, s.seekQueue == [], env)
      else env.rc
    case SeekDone(i, env) =>
      if s.ios[i].stage.SeekingData? then
        if NextData(c.data, s.pos).Some? then env.seekRc
        else if c.toFile && s.outstanding == 1 then env.endErr
        else 0
      else if |s.seekQueue| > 1 && env.seekRc != 0 && s.pos + Min(HoleLength(c, s.pos), Remaining(c, s)) < |c.input| then env.seekRc
      else env.rc
    case _ => 0
  }

  lemma HoleSeekError(c: Config, s: State, i: nat, env: Env)
    requires Ordered(c, s) && Shape(c, s) && !Halted(s) && i < |s.ios| && s.ios[i].stage.SeekingHole?
    requires Enabled(c, s, SeekDone(i, env))
    ensures Step(c, s, SeekDone(i, env)).error == StepError(c, s, SeekDone(i, env))
  {
    hide Ordered, Multiple, RoundUp, NextHole, PopulateBuffer, GoodIos, QueueShape, ValidConfig, ChunkLength, Remaining, Sum,
      Accounted, SeekHoleDone, XferLen, HoleLength;
    HoleSeekParts(c, s, i, env);
    var u := Chosen(c, s, i);
    PopulateEffect(c, u, i, env.rc);
    PopulateError(c, u, i, env.rc);
    SameRemaining(c, s, u);
  }

  lemma PopulateError(c: Config, s: State, i: nat, rc: int)
    requires ValidConfig(c) && c.inStart <= s.pos && i < |s.ios| && !Halted(s) && Aim(c, s, i).ios[i].length > 0
    ensures PopulateBuffer(c, s, i, rc).error == rc
  {
    hide Multiple, RoundUp, Sub64, Remaining;
  }

  lemma DataSeekError(c: Config, s: State, i: nat, env: Env)
    requires Ordered(c, s) && Shape(c, s) && !Halted(s) && i < |s.ios| && s.ios[i].stage.SeekingData?
    requires Enabled(c, s, SeekDone(i, env))
    ensures Step(c, s, SeekDone(i, env)).error == StepError(c, s, SeekDone(i, env))
  {
    hide Ordered, Multiple, RoundUp, NextHole, NextData, Sum, XferLen, Extend, HoleLength, SeekHoleDone;
    OnBlock(c, s);
    OrderedPositive(c, s, i);
  }

  lemma CompleteError(c: Config, s: State, i: nat, flagged: bool, env: Env)
    requires Steady(c, s) && Shape(c, s) && !Halted(s) && Enabled(c, s, Completion(i, flagged, env))
    ensures Step(c, s, Completion(i, flagged, env)).error == StepError(c, s, Completion(i, flagged, env))
  {
    hide Steady, TargetSeek, XferLen, Multiple, RoundUp, SeekError, GoodIos;
    SteadyCounts(c, s, i);
    var t := Park(s, i).(outstanding := s.outstanding - 1, error := if flagged then -ENOSPC else s.error);
    if s.ios[i].stage.Writing? {
      assert InBounds(c, t) by { SteadyBounds(c, s); ParkBounds(c, s, t, i); }
      if flagged { HaltedSeekStops(c, t, i, env); } else { SeekErrorIs(c, t, i, env); }
    }
  }

  lemma SteadyBounds(c: Config, s: State)
    requires Steady(c, s)
    ensures InBounds(c, s)
  {
    hide GoodIos, QueueShape, Ledger, Live, Sum;
  }

  /** A context that looks for work after an error or an interrupt changes nothing but, as
      the last one, the calls of `dd_exit` and the progress. */
  lemma HaltedSeekStops(c: Config, s: State, i: nat, env: Env)
    requires i < |s.ios| && c.inStart <= s.pos && c.outBs > 0 && Halted(s)
    ensures var r := TargetSeek(c, s, i, env);
      && r.error == s.error && r.interrupt == s.interrupt && r.pos == s.pos && r.claims == s.claims && r.output == s.output
      && r.seekQueue == s.seekQueue && r.outstanding == s.outstanding && |r.ios| == |s.ios|
      && (forall j :: 0 <= j < |s.ios| ==> r.ios[j].stage == s.ios[j].stage)
      && r.totalBytes + r.incBytes == s.totalBytes + s.incBytes
      && r.exits == (if s.outstanding == 0 then s.exits + [s.error] else s.exits)
      && (s.outstanding == 0 && s.error == 0 ==> r.incBytes == 0)
  {
    hide RoundUp, Multiple, Sub64, NextData, NextHole, SeekFile, SeekBdev;
  }

  /** Exactly which answer of the environment becomes the error. */
  lemma ErrorIsTheAnswer(c: Config, s: State, e: Event)
    requires Steady(c, s) && Shape(c, s) && Enabled(c, s, e) && !Halted(s)
    ensures Step(c, s, e).error == StepError(c, s, e)
  {
    hide Steady, XferLen, Multiple, RoundUp, DdModel.Complete, SeekDataDone, SeekHoleDone, HoleLength, SeekError;
    match e
    case Transfer(i, k) =>
    case Completion(i, flagged, env) => CompleteError(c, s, i, flagged, env);
    case SeekDone(i, env) =>
      SteadySeeks(c, s, i);
      SteadyIsOrdered(c, s);
      if s.ios[i].stage.SeekingHole? { HoleSeekError(c, s, i, env); } else { DataSeekError(c, s, i, env); }
    case Tick =>
    case Interrupt =>
  }

  // ---------------------------------------------------- after an error or an interrupt

  lemma HaltedTransferStops(c: Config, s: State, i: nat, flagged: bool, env: Env)
    requires i < |s.ios| && InChain(s.ios[i]) && c.inStart <= s.pos && c.outBs > 0 && Halted(s)
    ensures var r := DdModel.Complete(c, s, i, flagged, env);
      && r.error == (if flagged then -ENOSPC else s.error) && r.interrupt == s.interrupt
      && r.pos == s.pos && r.claims == s.claims && r.output == s.output && r.seekQueue == s.seekQueue && |r.ios| == |s.ios|
      && (forall j :: 0 <= j < |s.ios| ==> r.ios[j].stage == if j == i then Idle else s.ios[j].stage)
      && r.outstanding == s.outstanding - 1
      && r.exits == (if s.outstanding == 1 then s.exits + [r.error] else s.exits)
      && r.totalBytes + r.incBytes == s.totalBytes + s.incBytes
      && (s.outstanding == 1 && r.error == 0 ==> r.incBytes == if s.ios[i].stage.Populating? then s.incBytes else 0)
  {
    hide TargetSeek;
    var t := Park(s, i).(outstanding := s.outstanding - 1, error := if flagged then -ENOSPC else s.error);
    HaltedSeekStops(c, t, i, env);
  }

  /** After an error or an interrupt nothing is claimed, queued or submitted any more: every
      operation in flight ends, and its context stops. The last one calls `dd_exit` with the
      error and, if that is zero, has added up the total, unless it stopped before its read. */
  lemma HaltedWindsDown(c: Config, s: State, e: Event)
    requires Steady(c, s) && Shape(c, s) && Enabled(c, s, e) && Halted(s)
    ensures var r := Step(c, s, e);
      && Halted(r) && r.pos == s.pos && r.claims == s.claims && |r.ios| == |s.ios|
      && (forall j :: 0 <= j < |s.ios| ==>
            r.ios[j].stage == if (e.Completion? || e.SeekDone?) && j == e.i then Idle else s.ios[j].stage)
      && (r.error == s.error || (e.Completion? && e.flagged && r.error == -ENOSPC))
      && (e.Completion? && s.outstanding == 1 && r.error == 0 ==>
            r.exits == s.exits + [0] && r.incBytes == if s.ios[e.i].stage.Populating? then s.incBytes else 0)
  {
    hide Steady, XferLen, Multiple, RoundUp, DdModel.Complete, SeekDataDone, SeekHoleDone;
    match e
    case Transfer(i, k) =>
    case Completion(i, flagged, env) => HaltedTransferStops(c, s, i, flagged, env);
    case SeekDone(i, env) =>
      HaltedSeekSpends(c, s, i, env);
      HaltedSeekKeepsError(c, s, i, env);
      HaltedSeekKeepsClaims(c, s, i, env);
    case Tick =>
    case Interrupt =>
  }

  lemma HaltedSeekKeepsClaims(c: Config, s: State, i: nat, env: Env)
    requires Shape(c, s) && Enabled(c, s, SeekDone(i, env)) && Halted(s)
    ensures var r := Step(c, s, SeekDone(i, env));
      r.claims == s.claims && Halted(r) && r.totalBytes + r.incBytes == s.totalBytes + s.incBytes
  {
    hide Multiple, RoundUp, NextHole, NextData, Sub64, XferLen, PopulateBuffer;
  }

  /** A failed `lseek` of a context that is not the last one in flight is lost: the context
      stops, and nothing else happens. */
  lemma LostSeek(c: Config, s: State, i: nat, env: Env)
    requires InBounds(c, s) && c.mode.SparseFile? && i < |s.ios| && !Halted(s) && s.outstanding > 0 && Remaining(c, s) != 0
    ensures env.dataErr != 0 ==> TargetSeek(c, s, i, env) == s
    ensures env.dataErr == 0 && env.holeErr != 0 && NextData(c.data, s.pos).Some? ==>
              TargetSeek(c, s, i, env) == s.(pos := NextData(c.data, s.pos).value)
  {
    hide RoundUp, Multiple, Sub64, NextData, NextHole, PopulateBuffer, GoodIo;
  }

  // --------------------------------------------------------------------- the counters

  /** The bytes that an event hands to a write, accepted or refused. */
  function HandedBy(c: Config, s: State, e: Event): nat
    requires Shape(c, s) && Enabled(c, s, e)
  {
    if e.Completion? && s.ios[e.i].stage.Reading? && !e.flagged && !Halted(s) then s.ios[e.i].length else 0
  }

  lemma SeekCounts(c: Config, s: State, i: nat, env: Env)
    requires i < |s.ios| && c.inStart <= s.pos && c.outBs > 0
    ensures var r := TargetSeek(c, s, i, env); r.totalBytes + r.incBytes == s.totalBytes + s.incBytes
  {
    hide RoundUp, Multiple, Sub64, NextData, NextHole, Extend, PopulateBuffer;
    if c.mode.Dense? {
      PopulateCounts(c, s, i, env.rc);
    } else if c.mode.SparseFile? && NextData(c.data, s.pos).Some? {
      var t := s.(pos := NextData(c.data, s.pos).value);
      var hole := NextHole(c.data, t.pos);
      PopulateCounts(c, WithLength(t, i, if hole > t.pos then Min(c.unit, hole - t.pos) else c.unit), i, env.rc);
    }
  }

  lemma CompleteHands(c: Config, s: State, i: nat, flagged: bool, env: Env)
    requires Shape(c, s) && Enabled(c, s, Completion(i, flagged, env))
    ensures var e := Completion(i, flagged, env); var r := Step(c, s, e);
      r.totalBytes + r.incBytes == s.totalBytes + s.incBytes + HandedBy(c, s, e)
  {
    hide TargetSeek, XferLen;
    var t := Park(s, i).(outstanding := s.outstanding - 1, error := if flagged then -ENOSPC else s.error);
    SeekCounts(c, t, i, env);
  }

  lemma PopulateCounts(c: Config, s: State, i: nat, rc: int)
    requires i < |s.ios| && c.inStart <= s.pos && c.outBs > 0
    ensures var r := PopulateBuffer(c, s, i, rc); r.totalBytes + r.incBytes == s.totalBytes + s.incBytes
  {
    hide RoundUp, Multiple, Sub64;
  }

  lemma SeekDoneCounts(c: Config, s: State, i: nat, env: Env)
    requires Shape(c, s) && Enabled(c, s, SeekDone(i, env))
    ensures var r := Step(c, s, SeekDone(i, env)); r.totalBytes + r.incBytes == s.totalBytes + s.incBytes
  {
    hide RoundUp, Multiple, Sub64, NextData, NextHole, Extend, XferLen, PopulateBuffer;
    if !Halted(s) && s.ios[i].stage.SeekingHole? {
      var hole := NextHole(c.data, (s.pos / c.inBs) * c.inBs);
      var n := if hole == |c.data| || hole < s.pos then c.unit else Min(c.unit, hole - s.pos);
      PopulateCounts(c, WithLength(Park(s, i), i, n).(outstanding := s.outstanding - 1, seekQueue := s.seekQueue[1..]), i, env.rc);
    }
  }

  lemma StepHands(c: Config, s: State, e: Event)
    requires Shape(c, s) && Enabled(c, s, e)
    ensures var r := Step(c, s, e); r.totalBytes + r.incBytes == s.totalBytes + s.incBytes + HandedBy(c, s, e)
  {
    hide DdModel.Complete, SeekDataDone, SeekHoleDone, XferLen;
    if e.Completion? { CompleteHands(c, s, e.i, e.flagged, e.env); }
    else if e.SeekDone? { SeekDoneCounts(c, s, e.i, e.env); }
  }

  ghost function Handed(c: Config, s: State, events: seq<Event>): nat
    requires CanRun(c, s, events)
    decreases |events|
  {
    if events == [] then 0 else HandedBy(c, s, events[0]) + Handed(c, Step(c, s, events[0]), events[1..])
  }

  lemma {:induction false} RunHands(c: Config, s: State, events: seq<Event>)
    requires CanRun(c, s, events)
    ensures var r := Run(c, s, events); r.totalBytes + r.incBytes == s.totalBytes + s.incBytes + Handed(c, s, events)
    decreases |events|
  {
    hide Step, Shape, Enabled, HandedBy;
    if events != [] {
      StepHands(c, s, events[0]);
      RunHands(c, Step(c, s, events[0]), events[1..]);
    }
  }

  lemma {:induction false} LaunchCounts(c: Config, s: State, envs: seq<Env>, n: nat)
    requires c.outBs > 0 && Init(c, s) && n <= |s.ios| == |envs|
    ensures var r := Launch(c, s, envs, n); r.totalBytes + r.incBytes == 0
  {
    hide TargetSeek;
    if n > 0 {
      LaunchCounts(c, s, envs, n - 1);
      SeekCounts(c, Launch(c, s, envs, n - 1), n - 1, envs[n - 1]);
    }
  }

  /** In every state of every run, through errors and interrupts and however the ticks
      fall, the counters hold exactly the bytes that were handed to a write. */
  lemma CountersAreExact(c: Config, s: State, envs: seq<Env>, events: seq<Event>)
    requires AnyRun(c, s, envs, events)
    ensures var r := AnyOutcome(c, s, envs, events);
      r.totalBytes + r.incBytes == Handed(c, Launch(c, s, envs, |s.ios|), events)
  {
    hide Launch, CanRun, InBlocks, Handed;
    LaunchCounts(c, s, envs, |s.ios|);
    RunHands(c, Launch(c, s, envs, |s.ios|), events);
  }

  /** The total grows only with a tick of the poller, or with the `dd_exit` of a copy
      without an error, and then everything counted is in it. */
  predicate Shows(s: State, r: State) {
    r.totalBytes == s.totalBytes || (|r.exits| > |s.exits| && r.error == 0 && r.incBytes == 0)
  }

  lemma PopulateShows(c: Config, s: State, i: nat, rc: int)
    requires i < |s.ios| && c.inStart <= s.pos && c.outBs > 0
    ensures Shows(s, PopulateBuffer(c, s, i, rc))
  {
    hide RoundUp, Multiple, Sub64;
  }

  lemma SeekShows(c: Config, s: State, i: nat, env: Env)
    requires i < |s.ios| && c.inStart <= s.pos && c.outBs > 0
    ensures Shows(s, TargetSeek(c, s, i, env))
  {
    hide RoundUp, Multiple, Sub64, NextData, NextHole, Extend, PopulateBuffer;
    if c.mode.Dense? {
      PopulateShows(c, s, i, env.rc);
    } else if c.mode.SparseFile? && NextData(c.data, s.pos).Some? {
      var t := s.(pos := NextData(c.data, s.pos).value);
      var hole := NextHole(c.data, t.pos);
      PopulateShows(c, WithLength(t, i, if hole > t.pos then Min(c.unit, hole - t.pos) else c.unit), i, env.rc);
    }
  }

  lemma CompleteShows(c: Config, s: State, i: nat, flagged: bool, env: Env)
    requires i < |s.ios| && InChain(s.ios[i]) && c.inStart <= s.pos && c.outBs > 0
    ensures Shows(s, DdModel.Complete(c, s, i, flagged, env))
  {
    hide TargetSeek;
    var t := Park(s, i).(outstanding := s.outstanding - 1, error := if flagged then -ENOSPC else s.error);
    SeekShows(c, t, i, env);
  }

  lemma HoleSeekShows(c: Config, s: State, i: nat, env: Env)
    requires Ordered(c, s) && Shape(c, s) && !Halted(s) && i < |s.ios| && s.ios[i].stage.SeekingHole? && s.seekQueue != []
    ensures SeekHoleDone(c, s, i, env).totalBytes == s.totalBytes
  {
    hide Ordered, Shape, Multiple, RoundUp, NextHole, PopulateBuffer, GoodIos, SeekHoleDone, QueueShape, ChunkLength, Remaining,
      Sum, Accounted;
    HoleSeekParts(c, s, i, env);
    PopulateKeepsTotal(c, Chosen(c, s, i), i, env.rc);
  }

  lemma PopulateKeepsTotal(c: Config, s: State, i: nat, rc: int)
    requires ValidConfig(c) && c.inStart <= s.pos && i < |s.ios| && !Halted(s) && Aim(c, s, i).ios[i].length > 0
    ensures PopulateBuffer(c, s, i, rc).totalBytes == s.totalBytes
  {
    hide Multiple, RoundUp, Sub64, Remaining;
  }

  lemma DataSeekShows(c: Config, s: State, i: nat, env: Env)
    requires i < |s.ios| && s.seekQueue != [] && c.inBs > 0
    ensures Shows(s, SeekDataDone(c, s, i, env))
  {
    hide NextData, Extend;
  }

  lemma HaltedHoleShows(c: Config, s: State, i: nat, env: Env)
    requires Shape(c, s) && Enabled(c, s, SeekDone(i, env)) && Halted(s)
    ensures Shows(s, Step(c, s, SeekDone(i, env)))
  {
    hide Multiple, RoundUp, NextHole, NextData, Sub64, XferLen, PopulateBuffer;
  }

  lemma TotalIsShown(c: Config, s: State, e: Event)
    requires Steady(c, s) && Shape(c, s) && Enabled(c, s, e) && !e.Tick?
    ensures var r := Step(c, s, e);
      r.totalBytes == s.totalBytes || (|r.exits| > |s.exits| && r.error == 0 && r.incBytes == 0)
  {
    hide Steady, XferLen, DdModel.Complete, SeekDataDone, SeekHoleDone;
    match e
    case Transfer(i, k) =>
    case Completion(i, flagged, env) => CompleteShows(c, s, i, flagged, env);
    case SeekDone(i, env) =>
      if Halted(s) {
        HaltedHoleShows(c, s, i, env);
      } else if s.ios[i].stage.SeekingHole? {
        SteadySeeks(c, s, i);
        SteadyIsOrdered(c, s);
        HoleSeekShows(c, s, i, env);
      } else {
        DataSeekShows(c, s, i, env);
      }
    case Interrupt =>
  }

  // ------------------------------------------------- what is read back from the output

  /** Only claims that do not end on an output block are populated from the output. */
  ghost predicate Partial(c: Config, s: State)
    requires c.outBs > 0
  {
    forall i :: 0 <= i < |s.ios| && s.ios[i].stage.Populating? ==> !Multiple(s.ios[i].length, c.outBs)
  }

  lemma PopulatePartial(c: Config, s: State, i: nat, rc: int)
    requires i < |s.ios| && c.inStart <= s.pos && c.outBs > 0 && Partial(c, s)
    requires !s.ios[i].stage.Populating?
    ensures Partial(c, PopulateBuffer(c, s, i, rc))
  {
    hide RoundUp, Multiple, Sub64;
  }

  lemma SeekPartial(c: Config, s: State, i: nat, env: Env)
    requires i < |s.ios| && c.inStart <= s.pos && c.outBs > 0 && Partial(c, s) && !s.ios[i].stage.Populating?
    ensures Partial(c, TargetSeek(c, s, i, env))
  {
    hide RoundUp, Multiple, Sub64, NextData, NextHole, Extend, PopulateBuffer;
    if c.mode.Dense? {
      PopulatePartial(c, s, i, env.rc);
    } else if c.mode.SparseFile? && NextData(c.data, s.pos).Some? {
      var t := s.(pos := NextData(c.data, s.pos).value);
      var hole := NextHole(c.data, t.pos);
      PopulatePartial(c, WithLength(t, i, if hole > t.pos then Min(c.unit, hole - t.pos) else c.unit), i, env.rc);
    }
  }

  lemma CompletePartial(c: Config, s: State, i: nat, flagged: bool, env: Env)
    requires i < |s.ios| && InChain(s.ios[i]) && c.inStart <= s.pos && c.outBs > 0 && Partial(c, s)
    ensures Partial(c, DdModel.Complete(c, s, i, flagged, env))
  {
    hide TargetSeek, Multiple;
    var t := Park(s, i).(outstanding := s.outstanding - 1, error := if flagged then -ENOSPC else s.error);
    SeekPartial(c, t, i, env);
  }

  lemma HoleSeekPartial(c: Config, s: State, i: nat, env: Env)
    requires Shape(c, s) && Enabled(c, s, SeekDone(i, env)) && Partial(c, s) && s.ios[i].stage.SeekingHole?
    ensures Partial(c, Step(c, s, SeekDone(i, env)))
  {
    hide Multiple, RoundUp, NextHole, NextData, Sub64, XferLen, PopulateBuffer, StartNextSeek;
    if !Halted(s) {
      var hole := NextHole(c.data, (s.pos / c.inBs) * c.inBs);
      var n := if hole == |c.data| || hole < s.pos then c.unit else Min(c.unit, hole - s.pos);
      var t := WithLength(Park(s, i), i, n).(outstanding := s.outstanding - 1, seekQueue := s.seekQueue[1..]);
      assert Partial(c, t);
      hide Partial;
      PopulatePartial(c, t, i, env.rc);
      StartNextPartial(c, PopulateBuffer(c, t, i, env.rc), env.seekRc);
    }
  }

  lemma StartNextPartial(c: Config, s: State, seekRc: int)
    requires c.outBs > 0 && Partial(c, s) && (s.seekQueue != [] ==> s.seekQueue[0] < |s.ios|)
    ensures Partial(c, StartNextSeek(c, s, seekRc))
  {
    hide Multiple;
  }

  lemma DataSeekPartial(c: Config, s: State, i: nat, env: Env)
    requires i < |s.ios| && s.seekQueue != [] && c.inBs > 0 && c.outBs > 0 && Partial(c, s)
    ensures Partial(c, SeekDataDone(c, s, i, env))
  {
    hide NextData, Extend, Multiple;
  }

  lemma {:induction false} RunPartial(c: Config, s: State, events: seq<Event>)
    requires c.outBs > 0 && CanRun(c, s, events) && Partial(c, s)
    ensures Partial(c, Run(c, s, events))
    decreases |events|
  {
    hide DdModel.Complete, SeekDataDone, SeekHoleDone, XferLen, Multiple;
    if events != [] {
      var e := events[0];
      if e.Completion? { CompletePartial(c, s, e.i, e.flagged, e.env); }
      else if e.SeekDone? && s.ios[e.i].stage.SeekingHole? { HoleSeekPartial(c, s, e.i, e.env); }
      else if e.SeekDone? { DataSeekPartial(c, s, e.i, e.env); }
      RunPartial(c, Step(c, s, e), events[1..]);
    }
  }

  lemma {:induction false} LaunchPartial(c: Config, s: State, envs: seq<Env>, n: nat)
    requires ValidConfig(c) && (c.mode.SparseBdev? ==> BdevConfig(c)) && Init(c, s) && n <= |s.ios| == |envs|
    ensures var r := Launch(c, s, envs, n); Partial(c, r) && forall j :: n <= j < |s.ios| ==> r.ios[j] == s.ios[j]
  {
    hide TargetSeek, InBlocks, Multiple;
    if n > 0 {
      LaunchPartial(c, s, envs, n - 1);
      var t := Launch(c, s, envs, n - 1);
      SeekPartial(c, t, n - 1, envs[n - 1]);
      SeekOthers(c, t, n - 1, envs[n - 1]);
    }
  }

  /** In every state of every run, a claim of whole output blocks is not read back from the
      output before it is written. */
  lemma OnlyPartialBlocksArePopulated(c: Config, s: State, envs: seq<Env>, events: seq<Event>)
    requires AnyRun(c, s, envs, events)
    ensures var r := AnyOutcome(c, s, envs, events);
      forall i :: 0 <= i < |r.ios| && r.ios[i].stage.Populating? ==> !Multiple(r.ios[i].length, c.outBs)
  {
    hide Launch, CanRun, InBlocks, Multiple;
    LaunchPartial(c, s, envs, |s.ios|);
    RunPartial(c, Launch(c, s, envs, |s.ios|), events);
  }

  // --------------------------------------------------------- the seek queue is a queue

  /** A context joins at the end, and only the head leaves. */
  lemma StepIsFifo(c: Config, s: State, e: Event)
    requires Ordered(c, s) && Shape(c, s) && Enabled(c, s, e)
    ensures var r := Step(c, s, e);
      && |r.ios| == |s.ios|
      && (if e.Completion? && Waiting(r.ios[e.i]) then r.seekQueue == s.seekQueue + [e.i]
          else r.seekQueue == s.seekQueue || (e.SeekDone? && s.seekQueue != [] && r.seekQueue == s.seekQueue[1..]))
  {
    hide Ordered, Multiple, RoundUp, NextHole, NextData, PopulateBuffer, XferLen, Extend, SeekFile, Sub64, DdModel.Complete;
    OrderedMode(c, s);
    StepOrdered(c, s, e);
    if e.Completion? { CompletionQueues(c, s, e.i, e.flagged, e.env); }
  }

  lemma CompletionQueues(c: Config, s: State, i: nat, flagged: bool, env: Env)
    requires c.mode.SparseBdev? && c.inStart <= s.pos && c.outBs > 0 && i < |s.ios| && InChain(s.ios[i])
    ensures var r := DdModel.Complete(c, s, i, flagged, env);
      r.seekQueue == if Waiting(r.ios[i]) then s.seekQueue + [i] else s.seekQueue
  {
    hide Multiple, RoundUp, NextHole, NextData, PopulateBuffer, SeekFile, Sub64;
  }

  /** The numbers increase strictly and stay below `n`. */
  ghost predicate Increasing(q: seq<nat>, n: nat) {
    (forall j :: 0 <= j < |q| ==> q[j] < n) && (forall j, k :: 0 <= j < k < |q| ==> q[j] < q[k])
  }

  lemma IncreasingNext(q: seq<nat>, n: nat)
    requires Increasing(q, n)
    ensures Increasing(q, n + 1) && Increasing(q + [n], n + 1)
  {
  }

  /** The launch queues the contexts in their order. */
  lemma {:induction false} LaunchQueuesInOrder(c: Config, s: State, envs: seq<Env>, n: nat)
    requires BdevConfig(c) && Init(c, s) && n <= |s.ios| == |envs|
    ensures Increasing(Launch(c, s, envs, n).seekQueue, n)
  {
    hide TargetSeek, InBlocks;
    if n > 0 {
      LaunchQueuesInOrder(c, s, envs, n - 1);
      var t := Launch(c, s, envs, n - 1);
      SeekQueues(c, t, n - 1, envs[n - 1]);
      IncreasingNext(t.seekQueue, n - 1);
    }
  }

  lemma SeekQueues(c: Config, s: State, i: nat, env: Env)
    requires c.mode.SparseBdev? && c.inStart <= s.pos && c.outBs > 0 && i < |s.ios|
    ensures var r := TargetSeek(c, s, i, env); r.seekQueue == s.seekQueue || r.seekQueue == s.seekQueue + [i]
  {
    hide PopulateBuffer, SeekFile, Sub64;
  }

  /** The contexts that join during a run, in their order. */
  ghost function Joins(c: Config, s: State, events: seq<Event>): seq<nat>
    requires CanRun(c, s, events)
    decreases |events|
  {
    if events == [] then []
    else
      var e, r := events[0], Step(c, s, events[0]);
      (if e.Completion? && e.i < |r.ios| && Waiting(r.ios[e.i]) then [e.i] else []) + Joins(c, r, events[1..])
  }

  /** Contexts that wait for a seek are served in the order in which they came: what has
      left the queue of a run is the beginning of what was in it and has joined it since. */
  lemma {:induction false} QueueIsFifo(c: Config, s: State, events: seq<Event>) returns (served: nat)
    requires Ordered(c, s) && CanRun(c, s, events)
    ensures var line := s.seekQueue + Joins(c, s, events);
      served <= |line| && Run(c, s, events).seekQueue == line[served..]
    decreases |events|
  {
    hide Ordered, Step, Shape, Enabled;
    served := 0;
    if events == [] {
      assert s.seekQueue + [] == s.seekQueue;
    } else {
      var e, r := events[0], Step(c, s, events[0]);
      StepOrdered(c, s, e);
      StepIsFifo(c, s, e);
      assert e.Completion? ==> e.i < |r.ios| by { EnabledInRange(c, s, e); }
      var rest := QueueIsFifo(c, r, events[1..]);
      var first := if e.Completion? && Waiting(r.ios[e.i]) then [e.i] else [];
      served := Serve(s.seekQueue, first, r.seekQueue, Joins(c, r, events[1..]), rest);
    }
  }

  /** One step of the line: `first` joins it, or its head leaves. */
  lemma Serve(old': seq<nat>, first: seq<nat>, new': seq<nat>, tail: seq<nat>, rest: nat) returns (served: nat)
    requires new' == old' + first || (first == [] && old' != [] && new' == old'[1..])
    requires rest <= |new' + tail|
    ensures served <= |old' + (first + tail)| && (old' + (first + tail))[served..] == (new' + tail)[rest..]
  {
    assert old' + (first + tail) == (old' + first) + tail;
    if new' == old' + first {
      served := rest;
    } else {
      served := rest + 1;
      assert (old' + tail)[1..] == old'[1..] + tail;
      assert (old' + (first + tail))[1..] == new' + tail;
    }
  }

  lemma EnabledInRange(c: Config, s: State, e: Event)
    requires Shape(c, s) && Enabled(c, s, e)
    ensures e.Completion? ==> e.i < |s.ios|
  {
  }
}
