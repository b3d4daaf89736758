/** How long the output file is when a copy has ended without an error, in all three
    modes, and with it the exact contents of a fresh file. */
module DdLength {
  import opened Arith
  import opened ByteOrder
  import opened DdModel
  import opened DdAccounting
  import opened DdCopy
  import opened DdTally
  import opened DdSparse
  import opened DdSeekQueue
  import opened DdProgress
  import opened DdSeekHang
  import opened DdSeekRuns

  // -------------------------------------------------------------- dense copies

  /** A dense copy that ended without an error has written its region to the end, and one
      of nothing has left the output alone. */
  lemma DenseCopyIsLong(c: Config, s: State, envs: seq<Env>, events: seq<Event>)
    requires Copyable(c) && ProgramRun(c, s, envs, events) && c.mode.Dense?
    requires FaithfulRun(c, Launch(c, s, envs, |s.ios|), events)
    requires var r := Outcome(c, s, envs, events); r.exits != [] && !Halted(r)
    ensures var r := Outcome(c, s, envs, events);
      if c.copySize > 0 then |r.output| >= c.outStart + c.copySize else r.output == s.output
  {
    hide Copying, Accounted, ProgramRun, Outcome, FaithfulRun, Copyable, Long;
    OutcomeCopies(c, s, envs, events);
    OutcomeLong(c, s, envs, events);
    var r := Outcome(c, s, envs, events);
    if c.copySize > 0 { ExitSettles(c, s.output, r, c.copySize - 1); } else { EmptyStays(c, s.output, r); }
  }

  // ------------------------------------------------------- sparse copies of files

  /** The region ends with a hole that is followed directly by data: the last seek leaves
      the cursor at the end of the region, and the output file is not finalized. */
  predicate CutInHole(c: Config) {
    c.copySize > 0 && !DataAt(c, End(c) - 1) && DataAt(c, End(c))
  }

  /** The region ends with a hole. */
  predicate EndsInHole(c: Config) {
    c.copySize > 0 && !c.mode.Dense? && !DataAt(c, End(c) - 1)
  }

  /** How far the file reaches into such a region: to its end, or not quite if the output
      is never finalized. */
  function Reach(c: Config): int {
    if DataAt(c, End(c)) then c.copySize - 1 else c.copySize
  }

  ghost predicate Stub(c: Config, o: seq<Byte>, s: State) {
    |s.output| <= Max(|o|, c.outStart + Reach(c))
  }

  /** No write of data reaches into the final hole. */
  lemma MoveStub(c: Config, o: seq<Byte>, s: State, i: nat, k: nat)
    requires Copying(c, o, s, NONE) && EndsInHole(c) && Stub(c, o, s)
    requires i < |s.ios| && InChain(s.ios[i]) && Movable(c, s.ios[i], k)
    ensures Stub(c, o, Move(c, s, i, k))
  {
    hide RoundUp, Multiple, Buffered, Safe, Sized, DdCopy.Complete, Disjoint;
    var io := s.ios[i];
    RoundUpBounds(io.length, c.outBs);
    assert GoodClaim(c, s.pos, ClaimOf(io));
    assert Within(ClaimOf(io), io.offset + io.length - 1);
  }

  lemma SeekStub(c: Config, o: seq<Byte>, s: State, i: nat, env: Env)
    requires ValidConfig(c) && EndsInHole(c) && Stub(c, o, s) && c.inStart <= s.pos <= End(c) && i < |s.ios|
    ensures Stub(c, o, TargetSeek(c, s, i, env))
  {
    hide RoundUp, Multiple, Sub64, NextData, NextHole;
  }

  lemma StepStub(c: Config, o: seq<Byte>, s: State, e: Event)
    requires Copying(c, o, s, NONE) && Accounted(c, s) && c.mode.SparseFile? && EndsInHole(c) && Stub(c, o, s)
    requires Shape(c, s) && Enabled(c, s, e)
    ensures Stub(c, o, Step(c, s, e))
  {
    hide RoundUp, Multiple, Sub64, TargetSeek, Sum, Buffered, Safe, Sized, DdCopy.Complete, Disjoint, GoodClaim;
    if e.Transfer? {
      MoveStub(c, o, s, e.i, e.k);
    } else if e.Completion? && s.ios[e.i].stage.Writing? {
      var t := Park(s, e.i).(outstanding := s.outstanding - 1, error := if e.flagged then -ENOSPC else s.error);
      SeekStub(c, o, t, e.i, e.env);
    } else if e.SeekDone? {
      assert false;
    }
  }

  lemma {:induction false} RunStub(c: Config, o: seq<Byte>, s: State, events: seq<Event>)
    requires Copying(c, o, s, NONE) && Copyable(c) && Accounted(c, s) && c.mode.SparseFile? && EndsInHole(c) && Stub(c, o, s)
    requires CanRun(c, s, events) && FaithfulRun(c, s, events)
    ensures Stub(c, o, Run(c, s, events))
    decreases |events|
  {
    hide Copying, Copyable, Step, Stub, GoodIos, Sum;
    if events != [] {
      StepCopies(c, o, s, events[0]);
      StepKeeps(c, s, events[0]);
      StepStub(c, o, s, events[0]);
      RunStub(c, o, Step(c, s, events[0]), events[1..]);
    }
  }

  lemma {:induction false} LaunchStub(c: Config, s: State, envs: seq<Env>, n: nat)
    requires Copyable(c) && c.mode.SparseFile? && EndsInHole(c) && Init(c, s) && n <= |s.ios| == |envs|
    ensures Stub(c, s.output, Launch(c, s, envs, n))
  {
    hide Accounted, TargetSeek, Copying, Aligned, Contained, BlocksFit;
    if n > 0 {
      LaunchStub(c, s, envs, n - 1);
      LaunchCopies(c, s, envs, n - 1);
      CopyingIsPlaced(c, s.output, Launch(c, s, envs, n - 1));
      SeekStub(c, s.output, Launch(c, s, envs, n - 1), n - 1, envs[n - 1]);
    }
  }

  lemma OutcomeStub(c: Config, s: State, envs: seq<Env>, events: seq<Event>)
    requires Copyable(c) && ProgramRun(c, s, envs, events) && c.mode.SparseFile? && EndsInHole(c)
    requires FaithfulRun(c, Launch(c, s, envs, |s.ios|), events)
    ensures Stub(c, s.output, Outcome(c, s, envs, events))
  {
    hide Copying, Accounted, Launch, CanRun, FaithfulRun, Stub, Aligned, Contained, BlocksFit;
    LaunchStub(c, s, envs, |s.ios|);
    LaunchCopies(c, s, envs, |s.ios|);
    LaunchKeeps(c, s, envs, |s.ios|);
    RunStub(c, s.output, Launch(c, s, envs, |s.ios|), events);
  }

  lemma ExitReaches(c: Config, o: seq<Byte>, s: State)
    requires Accounted(c, s) && Copying(c, o, s, NONE) && Long(c, o, s) && s.exits != [] && !Halted(s)
    requires c.mode.SparseFile? && c.toFile && c.copySize > 0 && !CutInHole(c)
    ensures |s.output| >= c.outStart + c.copySize
  {
    hide Multiple, RoundUp, Sub64, GoodIos, GoodClaim, Buffered, Safe, Sum;
    if s.pos == End(c) { ExitSettles(c, o, s, c.copySize - 1); }
  }

  /** A sparse copy of a file to a file that was shorter than the end of the region, ended
      without an error, has made it long enough if and only if the region does not end with
      a hole that is followed directly by data. A region that ends with a hole gives the
      file exactly the length of its end. */
  lemma SparseCopyIsLongIff(c: Config, s: State, envs: seq<Env>, events: seq<Event>)
    requires Copyable(c) && ProgramRun(c, s, envs, events) && c.mode.SparseFile? && c.toFile && c.copySize > 0
    requires FaithfulRun(c, Launch(c, s, envs, |s.ios|), events) && |s.output| < c.outStart + c.copySize
    requires var r := Outcome(c, s, envs, events); r.exits != [] && !Halted(r)
    ensures var n := |Outcome(c, s, envs, events).output|;
      && (n >= c.outStart + c.copySize <==> !CutInHole(c))
      && (EndsInHole(c) && !CutInHole(c) ==> n == c.outStart + c.copySize)
  {
    hide Copying, Accounted, ProgramRun, Outcome, FaithfulRun, Copyable, Long;
    OutcomeCopies(c, s, envs, events);
    OutcomeLong(c, s, envs, events);
    if EndsInHole(c) { OutcomeStub(c, s, envs, events); }
    if !CutInHole(c) { ExitReaches(c, s.output, Outcome(c, s, envs, events)); }
  }

  /** A byte of data, a hole, and data again, of which the first two bytes are copied: the
      fresh output file is one byte long when the copy ends without an error. */
  lemma CutInHoleIsShort(c: Config) returns (s: State, envs: seq<Env>, events: seq<Event>)
    requires c == Config(1, 0, 0, 2, 1, 1, SparseFile, true, [7, 0, 8], [true, false, true])
    ensures ProgramRun(c, s, envs, events) && |s.ios| == 1 && s.output == []
    ensures FaithfulRun(c, Launch(c, s, envs, 1), events)
    ensures var r := Outcome(c, s, envs, events); r.exits != [] && !Halted(r) && r.output == [7]
  {
    hide ProgramRun, Outcome, FaithfulRun, Launch, Copyable, RoundUp;
    s := Initial(c, 1, []);
    envs, events := SomeRunSucceeds(c, s);
    assert Copyable(c) by { CutIsCopyable(c); }
    SparseCopyIsLongIff(c, s, envs, events);
    CopyIsCorrect(c, s, envs, events);
    FirstByteIsThere(c, s, envs, events);
    var r := Outcome(c, s, envs, events);
    assert OutByte(c, r.output, 0) == 7;
  }

  lemma CutIsCopyable(c: Config)
    requires c == Config(1, 0, 0, 2, 1, 1, SparseFile, true, [7, 0, 8], [true, false, true])
    ensures Copyable(c)
  {
  }

  lemma FirstByteIsThere(c: Config, s: State, envs: seq<Env>, events: seq<Event>)
    requires Copyable(c) && ProgramRun(c, s, envs, events) && c.copySize > 0 && Wanted(c, c.inStart)
    requires FaithfulRun(c, Launch(c, s, envs, |s.ios|), events)
    requires var r := Outcome(c, s, envs, events); r.exits != [] && !Halted(r)
    ensures |Outcome(c, s, envs, events).output| > c.outStart
  {
    hide Copying, Accounted, ProgramRun, Outcome, FaithfulRun, Copyable;
    OutcomeCopies(c, s, envs, events);
    ExitSettles(c, s.output, Outcome(c, s, envs, events), 0);
  }

  // --------------------------------------------------- sparse copies from a bdev

  /** A sparse copy from a bdev that ended without an error before the cursor reached the
      end has finalized its output file. */
  ghost predicate Finalized(c: Config, s: State) {
    c.toFile && s.exits != [] && !Halted(s) && s.pos < End(c) ==> |s.output| >= c.outStart + c.copySize
  }

  lemma CompleteFinalizes(c: Config, s: State, i: nat, flagged: bool, env: Env)
    requires c.mode.SparseBdev? && ValidConfig(c) && c.inStart <= s.pos <= End(c) && i < |s.ios| && InChain(s.ios[i])
    requires s.exits == []
    ensures Finalized(c, DdModel.Complete(c, s, i, flagged, env))
  {
    hide Multiple, RoundUp, Sub64, NextHole, NextData, PopulateBuffer, SeekFile;
    RemainingZero(c, s);
  }

  lemma DataSeekFinalizes(c: Config, s: State, i: nat, env: Env)
    requires i < |s.ios| && s.seekQueue != [] && c.inBs > 0 && s.exits == [] && !Halted(s)
    ensures Finalized(c, SeekDataDone(c, s, i, env))
  {
    hide NextData;
  }

  lemma HoleSeekFinalizes(c: Config, s: State, i: nat, env: Env)
    requires Ordered(c, s) && Shape(c, s) && !Halted(s) && i < |s.ios| && s.ios[i].stage.SeekingHole? && s.seekQueue != []
    ensures Finalized(c, SeekHoleDone(c, s, i, env))
  {
    hide Ordered, Shape, Multiple, RoundUp, NextHole, PopulateBuffer, GoodIos, SeekHoleDone, QueueShape, ValidConfig, ChunkLength,
      Remaining, Sum, Accounted;
    HoleSeekParts(c, s, i, env);
    var u := Chosen(c, s, i);
    PopulateEffect(c, u, i, env.rc);
    PopulateRefused(c, u, i, env.rc);
  }

  lemma PopulateRefused(c: Config, s: State, i: nat, rc: int)
    requires ValidConfig(c) && c.inStart <= s.pos && i < |s.ios| && s.ios[i].stage.Idle? && !Halted(s) && s.exits == []
    requires Aim(c, s, i).ios[i].length > 0
    ensures var r := PopulateBuffer(c, s, i, rc); r.exits != [] ==> Halted(r)
  {
    hide Multiple, RoundUp, Sub64, Remaining;
  }

  lemma StepFinalizes(c: Config, s: State, e: Event)
    requires Ordered(c, s) && Shape(c, s) && Enabled(c, s, e) && Finalized(c, s)
    ensures Finalized(c, Step(c, s, e))
  {
    hide Ordered, Multiple, RoundUp, NextHole, NextData, PopulateBuffer, SeekHoleDone, SeekDataDone, DdModel.Complete, Remaining,
      Sum, XferLen;
    OrderedMode(c, s);
    if Halted(s) {
      StepStaysHalted(c, s, e);
    } else if Progresses(e) {
      NotExited(c, s);
      OrderedPositive(c, s, e.i);
      if e.Completion? {
        CompleteFinalizes(c, s, e.i, e.flagged, e.env);
      } else if e.SeekDone? {
        if s.ios[e.i].stage.SeekingHole? { HoleSeekFinalizes(c, s, e.i, e.env); } else { DataSeekFinalizes(c, s, e.i, e.env); }
      }
    }
  }

  lemma {:induction false} RunFinalizes(c: Config, s: State, events: seq<Event>)
    requires Ordered(c, s) && CanRun(c, s, events) && Finalized(c, s)
    ensures Finalized(c, Run(c, s, events))
    decreases |events|
  {
    hide Ordered, Step, Shape, Enabled, Finalized;
    if events != [] {
      StepOrdered(c, s, events[0]);
      StepFinalizes(c, s, events[0]);
      RunFinalizes(c, Step(c, s, events[0]), events[1..]);
    }
  }

  lemma BdevOutcomeFinalized(c: Config, s: State, envs: seq<Env>, events: seq<Event>)
    requires BdevRun(c, s, envs, events)
    ensures Finalized(c, BdevOutcome(c, s, envs, events))
  {
    hide Ordered, Launch, CanRun, InBlocks;
    var t := Launch(c, s, envs, |s.ios|);
    LaunchOrdered(c, s, envs, |s.ios|);
    RemainingAtStart(c, t);
    RunFinalizes(c, t, events);
  }

  lemma DataSeekStub(c: Config, o: seq<Byte>, s: State, i: nat, env: Env)
    requires i < |s.ios| && s.seekQueue != [] && c.inBs > 0 && Stub(c, o, s) && !DataAt(c, End(c)) && c.copySize > 0
    ensures Stub(c, o, SeekDataDone(c, s, i, env))
  {
    hide NextData;
  }

  lemma OutputKept(c: Config, s: State, e: Event)
    requires c.mode.SparseBdev? && Shape(c, s) && Enabled(c, s, e) && !e.Transfer?
    requires e.SeekDone? ==> s.ios[e.i].stage.SeekingHole?
    ensures Step(c, s, e).output == s.output
  {
    hide Multiple, RoundUp, NextHole, NextData, Sub64, XferLen, SeekFile, PopulateBuffer;
    if e.SeekDone? && !Halted(s) {
      var hole := NextHole(c.data, (s.pos / c.inBs) * c.inBs);
      var n := if hole == |c.data| || hole < s.pos then c.unit else Min(c.unit, hole - s.pos);
      var t := WithLength(Park(s, e.i), e.i, n).(outstanding := s.outstanding - 1, seekQueue := s.seekQueue[1..]);
      PopulateKeepsOutput(c, t, e.i, e.env.rc);
    }
  }

  lemma PopulateKeepsOutput(c: Config, s: State, i: nat, rc: int)
    requires i < |s.ios| && c.inStart <= s.pos && c.outBs > 0
    ensures PopulateBuffer(c, s, i, rc).output == s.output
  {
    hide Multiple, RoundUp, Sub64;
  }

  lemma BdevStepStub(c: Config, o: seq<Byte>, s: State, e: Event)
    requires Copying(c, o, s, NONE) && c.mode.SparseBdev? && ValidConfig(c) && EndsInHole(c) && Stub(c, o, s)
    requires Shape(c, s) && Enabled(c, s, e)
    ensures Stub(c, o, Step(c, s, e))
  {
    hide Copying, SeekDataDone, SeekHoleDone, DdModel.Complete, XferLen, Multiple, RoundUp;
    if e.Transfer? { MoveStub(c, o, s, e.i, e.k); }
    else if e.SeekDone? && s.ios[e.i].stage.SeekingData? { DataSeekStub(c, o, s, e.i, e.env); }
    else { OutputKept(c, s, e); }
  }

  lemma {:induction false} BdevRunStub(c: Config, o: seq<Byte>, s: State, events: seq<Event>)
    requires Copying(c, o, s, NONE) && Copyable(c) && Ordered(c, s) && EndsInHole(c) && Stub(c, o, s)
    requires CanRun(c, s, events) && FaithfulRun(c, s, events)
    ensures Stub(c, o, Run(c, s, events))
    decreases |events|
  {
    hide Copying, Ordered, Contained, Aligned, BlocksFit, Step, Stub, Shape, Enabled, Faithful;
    OrderedMode(c, s);
    if events != [] {
      StepOrdered(c, s, events[0]);
      BdevStepCopies(c, o, s, events[0]);
      BdevStepStub(c, o, s, events[0]);
      BdevRunStub(c, o, Step(c, s, events[0]), events[1..]);
    }
  }

  lemma {:induction false} LaunchKeepsOutput(c: Config, s: State, envs: seq<Env>, n: nat)
    requires c.mode.SparseBdev? && c.outBs > 0 && Init(c, s) && n <= |s.ios| == |envs|
    ensures Launch(c, s, envs, n).output == s.output
  {
    hide PopulateBuffer, SeekFile, Sub64;
    if n > 0 { LaunchKeepsOutput(c, s, envs, n - 1); }
  }

  /** A sparse copy from a bdev to a file that ended without an error has given the file
      its full length, and no more if the input ends with a hole. */
  lemma BdevCopyIsLong(c: Config, s: State, envs: seq<Env>, events: seq<Event>)
    requires Copyable(c) && BdevRun(c, s, envs, events) && c.toFile && c.copySize > 0
    requires FaithfulRun(c, Launch(c, s, envs, |s.ios|), events)
    requires var r := BdevOutcome(c, s, envs, events); r.exits != [] && !Halted(r)
    ensures var n := |BdevOutcome(c, s, envs, events).output|;
      && n >= c.outStart + c.copySize
      && (!DataAt(c, End(c) - 1) ==> n == Max(|s.output|, c.outStart + c.copySize))
  {
    hide BdevRun, BdevOutcome, Copying, Ledger, Live, Contained, Aligned, InBlocks, QueueShape, FaithfulRun, BlocksFit, Accounted;
    BdevOutcomeFinalized(c, s, envs, events);
    BdevOutcomeCopies(c, s, envs, events);
    OutcomeOrdered(c, s, envs, events);
    BdevExitReaches(c, s.output, BdevOutcome(c, s, envs, events));
    if !DataAt(c, End(c) - 1) {
      BdevOutcomeStub(c, s, envs, events);
      NeverShrinks(c, s.output, BdevOutcome(c, s, envs, events));
    }
  }

  lemma NeverShrinks(c: Config, o: seq<Byte>, s: State)
    requires Copying(c, o, s, NONE)
    ensures |o| <= |s.output|
  {
    hide Placed, Buffered, Safe, DdCopy.Complete, RoundUp;
  }

  lemma BdevOutcomeStub(c: Config, s: State, envs: seq<Env>, events: seq<Event>)
    requires Copyable(c) && BdevRun(c, s, envs, events) && c.copySize > 0 && !DataAt(c, End(c) - 1)
    requires FaithfulRun(c, Launch(c, s, envs, |s.ios|), events)
    ensures |BdevOutcome(c, s, envs, events).output| <= Max(|s.output|, c.outStart + c.copySize)
  {
    hide Ordered, Launch, CanRun, FaithfulRun, InBlocks, Copying, Contained, Aligned, BlocksFit;
    LaunchOrdered(c, s, envs, |s.ios|);
    BdevLaunchCopies(c, s, envs, |s.ios|);
    LaunchKeepsOutput(c, s, envs, |s.ios|);
    BdevRunStub(c, s.output, Launch(c, s, envs, |s.ios|), events);
  }

  lemma BdevExitReaches(c: Config, o: seq<Byte>, s: State)
    requires Accounted(c, s) && Copying(c, o, s, NONE) && Finalized(c, s) && s.exits != [] && !Halted(s)
    requires c.mode.SparseBdev? && c.toFile && c.copySize > 0
    ensures |s.output| >= c.outStart + c.copySize
  {
    hide Multiple, RoundUp, Sub64, GoodIos, GoodClaim, Buffered, Safe, Sum;
    if s.pos == End(c) { ExitSettles(c, o, s, c.copySize - 1); }
  }

  /** With nothing in flight the output stays as it is. */
  lemma {:induction false} IdleKeepsOutput(c: Config, s: State, events: seq<Event>)
    requires NothingInFlight(s) && CanRun(c, s, events)
    ensures Run(c, s, events).output == s.output
    decreases |events|
  {
    hide Shape, DdModel.Complete, SeekDataDone, SeekHoleDone, Move;
    if events != [] { IdleKeepsOutput(c, Step(c, s, events[0]), events[1..]); }
  }

  lemma {:induction false} EmptyLaunch(c: Config, s: State, envs: seq<Env>, n: nat)
    requires BdevConfig(c) && c.copySize == 0 && Init(c, s) && n <= |s.ios| == |envs|
    ensures var r := Launch(c, s, envs, n); r.ios == s.ios && r.output == s.output && r.pos == s.pos
  {
    hide PopulateBuffer, SeekFile, InBlocks;
    if n > 0 { EmptyLaunch(c, s, envs, n - 1); }
  }

  /** A sparse copy from a bdev to a fresh file, given that holes read as zeros, leaves
      exactly the input region behind `outStart` zeros, or nothing for an empty region. */
  lemma BdevSparseFileCopy(c: Config, s: State, envs: seq<Env>, events: seq<Event>)
    requires Copyable(c) && BdevRun(c, s, envs, events) && c.toFile && c.outBs == 1 && s.output == []
    requires FaithfulRun(c, Launch(c, s, envs, |s.ios|), events)
    requires forall q :: 0 <= q < |c.input| && !c.data[q] ==> c.input[q] == 0
    requires var r := BdevOutcome(c, s, envs, events); r.exits != [] && !Halted(r)
    ensures BdevOutcome(c, s, envs, events).output ==
              if c.copySize == 0 then [] else seq(c.outStart, _ => 0) + c.input[c.inStart..]
  {
    hide Launch, CanRun, FaithfulRun, OutByte, InByte, OutsideKept, Contained, Aligned, BlocksFit, InBlocks, CountWanted;
    BdevCopyIsCorrect(c, s, envs, events);
    if c.copySize > 0 {
      BdevCopyIsLong(c, s, envs, events);
    } else {
      EmptyLaunch(c, s, envs, |s.ios|);
      IdleKeepsOutput(c, Launch(c, s, envs, |s.ios|), events);
    }
    FreshOutput(c, BdevOutcome(c, s, envs, events));
  }

  /** A dense copy to a fresh file leaves exactly the input region behind zeros. */
  lemma DenseFileCopy(c: Config, s: State, envs: seq<Env>, events: seq<Event>)
    requires Copyable(c) && ProgramRun(c, s, envs, events) && c.mode.Dense? && c.outBs == 1 && s.output == []
    requires FaithfulRun(c, Launch(c, s, envs, |s.ios|), events)
    requires var r := Outcome(c, s, envs, events); r.exits != [] && !Halted(r)
    ensures Outcome(c, s, envs, events).output ==
              if c.copySize == 0 then [] else seq(c.outStart, _ => 0) + c.input[c.inStart..End(c)]
  {
    hide ProgramRun, Outcome, FaithfulRun, OutByte, InByte, OutsideKept, Contained, Aligned, BlocksFit;
    CopyIsCorrect(c, s, envs, events);
    DenseCopyIsLong(c, s, envs, events);
    FreshOutput(c, Outcome(c, s, envs, events));
  }
}
