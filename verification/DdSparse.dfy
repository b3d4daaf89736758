/** Copies that skip holes of an input file: the output file ends up equal to the
    input and as long as it has to be, and the cursor stays inside the region
    exactly under the condition `Contained`. */
module DdSparse {
  import opened Arith
  import opened ByteOrder
  import opened DdModel
  import opened DdAccounting
  import opened DdCopy
  import opened DdProgress
  import DdSetup
  import DdTally

  // --------------------------------------------------- length of the output file

  /** A sparse copy that ended before the cursor reached the end of the region has
      given the output file its full length; an empty copy has left it alone. */
  ghost predicate Long(c: Config, o: seq<Byte>, s: State) {
    && (c.toFile && c.mode.SparseFile? && s.exits != [] && !Halted(s) && s.pos < End(c) ==>
          |s.output| >= c.outStart + c.copySize)
    && (c.copySize == 0 ==> s.output == o)
  }

  /** Without an error, a context that takes a chunk calls `dd_exit` only at the end
      of the region. */
  lemma PopulateExits(c: Config, s: State, i: nat, rc: int)
    requires ValidConfig(c) && c.inStart <= s.pos && i < |s.ios| && s.exits == []
    requires Aim(c, s, i).ios[i].length == 0 ==> s.pos == End(c)
    ensures var r := PopulateBuffer(c, s, i, rc);
      r.output == s.output && (r.exits != [] && !Halted(r) ==> r.pos == End(c))
  {
    hide Multiple, RoundUp, Sub64, Remaining;
  }

  lemma DataLong(c: Config, o: seq<Byte>, s: State, i: nat, env: Env, d: nat)
    requires ValidConfig(c) && BlocksFit(c) && Aligned(c) && c.mode.SparseFile? && i < |s.ios| && s.exits == [] && !Halted(s)
    requires c.inStart <= s.pos && c.copySize > 0
    requires NextData(c.data, s.pos) == Some(d) && d <= End(c) && Multiple(d - c.inStart, c.outBs)
    ensures env.dataErr == 0 ==> Long(c, o, SeekFile(c, s, i, env))
  {
    hide Multiple, RoundUp, Sub64, NextData, NextHole, PopulateBuffer, Aligned, Takeable, BlocksFit;
    if env.dataErr == 0 && env.holeErr == 0 {
      var n := Min(c.unit, NextHole(c.data, d) - d);
      var u := WithLength(s.(pos := d), i, n);
      SparseTakeable(c, u, i);
      PopulateExits(c, u, i, env.rc);
    }
  }

  lemma SeekLong(c: Config, o: seq<Byte>, s: State, i: nat, env: Env)
    requires Placed(c, s, NONE) && Copyable(c) && !c.mode.SparseBdev? && Held(c, s, i) && Long(c, o, s)
    ensures Long(c, o, TargetSeek(c, s, i, env))
  {
    hide Multiple, RoundUp, Sub64, NextData, NextHole, GoodIos, Sum;
    RemainingZero(c, s);
    FlyingBounds(s.ios);
    if c.mode.SparseFile? && s.pos < End(c) && !Halted(s) && NextData(c.data, s.pos).Some? {
      DataInRegion(c, s);
      DataLong(c, o, s, i, env, NextData(c.data, s.pos).value);
    }
  }

  lemma StepLong(c: Config, o: seq<Byte>, s: State, e: Event)
    requires Copying(c, o, s, NONE) && Copyable(c) && !c.mode.SparseBdev? && Accounted(c, s) && Long(c, o, s)
    requires Shape(c, s) && Enabled(c, s, e) && Faithful(c, s, e)
    ensures Long(c, o, Step(c, s, e))
  {
    hide Multiple, RoundUp, Sub64, TargetSeek, Copyable, Sum;
    if e.Transfer? {
      OutstandingPositive(c, s, e.i);
      assert GoodClaim(c, s.pos, ClaimOf(s.ios[e.i]));
    } else if e.Completion? {
      OutstandingPositive(c, s, e.i);
      if s.ios[e.i].stage.Writing? { WrittenLong(c, o, s, e.i, e.flagged, e.env); }
    }
  }

  lemma WrittenLong(c: Config, o: seq<Byte>, s: State, i: nat, flagged: bool, env: Env)
    requires Copying(c, o, s, NONE) && Copyable(c) && !c.mode.SparseBdev? && Accounted(c, s) && Long(c, o, s)
    requires i < |s.ios| && s.ios[i].stage.Writing? && Finished(c, s.ios[i])
    ensures Long(c, o, DdModel.Complete(c, s, i, flagged, env))
  {
    hide Multiple, RoundUp, Sub64, TargetSeek, Copyable, Buffered, Safe, Sized, DdCopy.Complete, Finished;
    var t := Park(s, i).(outstanding := s.outstanding - 1, error := if flagged then -ENOSPC else s.error);
    OutstandingPositive(c, s, i);
    SumUpdates(s.ios, i, Park(s, i).ios[i]);
    ParkCopies(c, o, s, i);
    WrittenIsSettled(c, o, s, i);
    SettleCopies(c, o, Park(s, i), ClaimOf(s.ios[i]));
    SameCopies(c, o, Park(s, i), t, NONE);
    SeekLong(c, o, t, i, env);
  }

  lemma {:induction false} RunLong(c: Config, o: seq<Byte>, s: State, events: seq<Event>)
    requires Copying(c, o, s, NONE) && Copyable(c) && !c.mode.SparseBdev? && Accounted(c, s) && Long(c, o, s)
    requires CanRun(c, s, events) && FaithfulRun(c, s, events)
    ensures Long(c, o, Run(c, s, events))
    decreases |events|
  {
    hide Copying, Copyable, Step, Long, GoodIos, Sum;
    if events != [] {
      StepCopies(c, o, s, events[0]);
      StepKeeps(c, s, events[0]);
      StepLong(c, o, s, events[0]);
      RunLong(c, o, Step(c, s, events[0]), events[1..]);
    }
  }

  lemma {:induction false} LaunchLong(c: Config, s: State, envs: seq<Env>, n: nat)
    requires Copyable(c) && !c.mode.SparseBdev? && Init(c, s) && n <= |s.ios| == |envs|
    ensures Long(c, s.output, Launch(c, s, envs, n))
  {
    hide Accounted, TargetSeek, Placed;
    if n > 0 {
      LaunchLong(c, s, envs, n - 1);
      LaunchKeeps(c, s, envs, n - 1);
      LaunchCopies(c, s, envs, n - 1);
      var t := Launch(c, s, envs, n - 1);
      assert t.ios[n - 1] == s.ios[n - 1];
      SeekLong(c, s.output, t, n - 1, envs[n - 1]);
    }
  }

  /** A copy to the end of the input that ended without error has written or
      finalized the whole region. */
  lemma ExitLong(c: Config, o: seq<Byte>, s: State)
    requires Accounted(c, s) && Copying(c, o, s, NONE) && Long(c, o, s) && s.exits != [] && !Halted(s)
    requires c.mode.SparseFile? && c.toFile && End(c) == |c.input| && c.copySize > 0
    ensures |s.output| >= c.outStart + c.copySize
  {
    hide Multiple, RoundUp, Sub64, GoodIos, GoodClaim, Buffered, Safe, Sum;
    if s.pos == End(c) { ExitSettles(c, o, s, c.copySize - 1); }
  }

  /** Sparse copy to a freshly truncated file: given that holes read as zeros, a run
      that ended without error leaves a file that is exactly the input region behind
      `outStart` zeros. */
  lemma SparseFileCopy(c: Config, s: State, envs: seq<Env>, events: seq<Event>)
    requires Copyable(c) && ProgramRun(c, s, envs, events)
    requires FaithfulRun(c, Launch(c, s, envs, |s.ios|), events)
    requires c.mode.SparseFile? && c.toFile && c.outBs == 1 && End(c) == |c.input| && s.output == []
    requires forall q :: 0 <= q < |c.input| && !c.data[q] ==> c.input[q] == 0
    requires var r := Outcome(c, s, envs, events); r.exits != [] && !Halted(r)
    ensures Outcome(c, s, envs, events).output ==
              if c.copySize == 0 then [] else seq(c.outStart, _ => 0) + c.input[c.inStart..End(c)]
  {
    hide Copying, Accounted, ProgramRun, Outcome, OutByte, InByte, FaithfulRun, Long;
    OutcomeCopies(c, s, envs, events);
    OutcomeLong(c, s, envs, events);
    CopyIsCorrect(c, s, envs, events);
    var r := Outcome(c, s, envs, events);
    if c.copySize > 0 { ExitLong(c, s.output, r); } else { EmptyStays(c, s.output, r); }
    FreshOutput(c, r);
  }

  lemma EmptyStays(c: Config, o: seq<Byte>, s: State)
    requires Long(c, o, s) && c.copySize == 0
    ensures s.output == o
  {
  }

  /** A start at the end of a one-unit input, to be copied behind one unit of output: the
      set-up accepts it, the copy ends without an error, and the output file, which
      should be one unit long, stays empty. */
  lemma EmptyCopyIsShort(c: Config) returns (s: State, envs: seq<Env>, events: seq<Event>)
    requires c == Config(512, 512, 512, 0, 1, 1, SparseFile, true, seq(512, _ => 0), seq(512, _ => true))
    ensures DdSetup.Prepare(DdSetup.Options(512, 0, 1, 1, 2), DdSetup.FileTarget(1, 512), DdSetup.FileTarget(1, 0)) ==
              DdSetup.Ready(c.inStart, c.outStart, c.copySize, 1, c.inBs, c.outBs)
    ensures ProgramRun(c, s, envs, events) && |s.ios| == 1
    ensures var r := Outcome(c, s, envs, events); r.exits != [] && !Halted(r) && r.output == []
  {
    hide ProgramRun, Outcome, FaithfulRun, Launch, NextData;
    s := Initial(c, 1, []);
    envs, events := SomeRunSucceeds(c, s);
    SparseFileCopy(c, s, envs, events);
  }

  lemma OutcomeLong(c: Config, s: State, envs: seq<Env>, events: seq<Event>)
    requires Copyable(c) && ProgramRun(c, s, envs, events)
    requires FaithfulRun(c, Launch(c, s, envs, |s.ios|), events)
    ensures Long(c, s.output, Outcome(c, s, envs, events))
  {
    hide Copying, Accounted, Launch, CanRun, FaithfulRun, Long;
    LaunchLong(c, s, envs, |s.ios|);
    LaunchCopies(c, s, envs, |s.ios|);
    LaunchKeeps(c, s, envs, |s.ios|);
    RunLong(c, s.output, Launch(c, s, envs, |s.ios|), events);
  }

  /** What a complete copy to a fresh file looks like: the region behind `outStart` zeros. */
  lemma FreshOutput(c: Config, r: State)
    requires ValidConfig(c) && c.outBs == 1 && OutsideKept(c, [], r.output)
    requires c.mode.Dense? || forall q :: 0 <= q < |c.input| && !c.data[q] ==> c.input[q] == 0
    requires forall k: nat :: k < c.copySize ==>
               OutByte(c, r.output, k) == if Wanted(c, c.inStart + k) then InByte(c, k) else OutByte(c, [], k)
    requires if c.copySize > 0 then |r.output| >= c.outStart + c.copySize else r.output == []
    ensures r.output == if c.copySize == 0 then [] else seq(c.outStart, _ => 0) + c.input[c.inStart..End(c)]
  {
    hide Multiple, RoundUp, Sub64;
    if c.copySize > 0 {
      RoundUpBounds(c.copySize, 1);
      MultipleMod(c.copySize, 1);
      OneIsMultiple(c.copySize);
      var want := seq(c.outStart, _ => 0 as Byte) + c.input[c.inStart..End(c)];
      forall p | 0 <= p < |want| ensures r.output[p] == want[p] {
        if p < c.outStart {
          assert ByteAt(r.output, p) == ByteAt([], p);
        } else {
          var k := p - c.outStart;
          assert OutByte(c, r.output, k) == InByte(c, k);
        }
      }
    }
  }

  lemma OneIsMultiple(n: nat)
    ensures Multiple(n, 1)
  {
  }

  // ----------------------------------------------- staying inside the region

  /** A claim that starts behind the region. */
  ghost predicate ClaimedBehind(c: Config, s: State) {
    exists j :: 0 <= j < |s.claims| && s.claims[j].offset > End(c)
  }

  /** When the region is not contained the cursor never stops at its end, and once
      it is past it data is found or claimed there. */
  ghost predicate Overshoots(c: Config, s: State) {
    && s.pos != End(c)
    && (s.pos > End(c) && !Halted(s) ==> DataAt(c, s.pos) || ClaimedBehind(c, s))
  }

  /** Taking a chunk of data from `s.pos`. */
  lemma ChunkOvershoots(c: Config, s: State, i: nat, rc: int)
    requires ValidConfig(c) && c.mode.SparseFile? && c.copySize > 0 && !c.data[End(c) - 1] && !DataAt(c, End(c))
    requires i < |s.ios| && c.inStart <= s.pos && s.pos != End(c) && DataAt(c, s.pos) && !Halted(s)
    requires s.ios[i].length == Min(c.unit, NextHole(c.data, s.pos) - s.pos)
    ensures Overshoots(c, PopulateBuffer(c, s, i, rc))
  {
    hide Multiple, RoundUp, NextHole;
    var u := Take(Aim(c, s, i), i);
    var n := Aim(c, s, i).ios[i].length;
    assert NextHole(c.data, s.pos) > s.pos;
    assert n > 0;
    assert DataAt(c, s.pos + n - 1);
    assert u.claims[|s.claims|] == Claim(s.pos, n);
    assert s.pos > End(c) ==> ClaimedBehind(c, u);
  }

  lemma SeekOvershoots(c: Config, s: State, i: nat, env: Env)
    requires ValidConfig(c) && c.mode.SparseFile? && !Contained(c) && c.inStart <= s.pos
    requires i < |s.ios| && Overshoots(c, s)
    ensures Overshoots(c, TargetSeek(c, s, i, env))
  {
    hide Multiple, RoundUp, NextHole, NextData, PopulateBuffer;
    var next := NextData(c.data, s.pos);
    if Remaining(c, s) != 0 && !Halted(s) && env.dataErr == 0 && next.Some? {
      var d := next.value;
      assert d != End(c) && DataAt(c, d);
      if env.holeErr == 0 {
        var t := s.(pos := d);
        var n := Min(c.unit, NextHole(c.data, d) - d);
        ChunkOvershoots(c, WithLength(t, i, n), i, env.rc);
      }
    }
  }

  lemma StepOvershoots(c: Config, s: State, e: Event)
    requires Accounted(c, s) && c.mode.SparseFile? && !Contained(c) && Overshoots(c, s)
    requires Shape(c, s) && Enabled(c, s, e)
    ensures Overshoots(c, Step(c, s, e))
  {
    hide Multiple, RoundUp, Sub64, TargetSeek, Contained;
    if e.Completion? && s.ios[e.i].stage.Writing? {
      var t := Park(s, e.i).(outstanding := s.outstanding - 1, error := if e.flagged then -ENOSPC else s.error);
      SeekOvershoots(c, t, e.i, e.env);
    } else if e.SeekDone? {
      assert false;
    }
  }

  lemma {:induction false} RunOvershoots(c: Config, s: State, events: seq<Event>)
    requires Accounted(c, s) && c.mode.SparseFile? && !Contained(c) && Overshoots(c, s)
    requires CanRun(c, s, events)
    ensures Overshoots(c, Run(c, s, events))
    decreases |events|
  {
    hide Overshoots, Step, Contained, GoodIos, Sum;
    if events != [] {
      StepKeeps(c, s, events[0]);
      StepOvershoots(c, s, events[0]);
      RunOvershoots(c, Step(c, s, events[0]), events[1..]);
    }
  }

  lemma {:induction false} LaunchOvershoots(c: Config, s: State, envs: seq<Env>, n: nat)
    requires ValidConfig(c) && c.mode.SparseFile? && !Contained(c) && Init(c, s) && n <= |s.ios| == |envs|
    ensures Overshoots(c, Launch(c, s, envs, n))
  {
    hide Multiple, RoundUp, Sub64, TargetSeek;
    if n > 0 {
      LaunchOvershoots(c, s, envs, n - 1);
      SeekOvershoots(c, Launch(c, s, envs, n - 1), n - 1, envs[n - 1]);
    }
  }

  /** With `Contained`, no claim of any run leaves the region. Without it, every run
      that ends without an error has taken a chunk from behind the region. */
  lemma RunStaysInRegionIff(c: Config, s: State, envs: seq<Env>, events: seq<Event>)
    requires c.mode.SparseFile? && ProgramRun(c, s, envs, events)
    requires var r := Outcome(c, s, envs, events); r.exits != [] && !Halted(r)
    ensures Contained(c) <==> StayedInRegion(c, Outcome(c, s, envs, events))
  {
    hide Contained;
    if Contained(c) {
      OutcomeClaims(c, s, envs, events);
    } else {
      BehindAtExit(c, s, envs, events);
    }
  }

  ghost predicate StayedInRegion(c: Config, s: State) {
    s.pos <= End(c) && !ClaimedBehind(c, s)
  }

  lemma OutcomeClaims(c: Config, s: State, envs: seq<Env>, events: seq<Event>)
    requires ProgramRun(c, s, envs, events) && Contained(c)
    ensures StayedInRegion(c, Outcome(c, s, envs, events))
  {
    hide ProgramRun, Outcome, DdTally.Tallied;
    DdTally.ClaimsTile(c, s, envs, events);
  }

  lemma ExitBehind(c: Config, s: State)
    requires Accounted(c, s) && c.mode.SparseFile? && !Contained(c) && Overshoots(c, s) && s.exits != [] && !Halted(s)
    ensures s.pos > End(c) && ClaimedBehind(c, s)
  {
    hide Multiple, RoundUp, GoodIos, Sum;
    assert Remaining(c, s) != 0;
    assert NextData(c.data, s.pos).None?;
  }

  /** In no state of any run, with any number of contexts, is a claim outside. */
  ghost predicate AlwaysStaysInRegion(c: Config) {
    forall s: State, envs: seq<Env>, events: seq<Event> ::
      ProgramRun(c, s, envs, events) ==> StayedInRegion(c, Outcome(c, s, envs, events))
  }

  /** A sparse copy stays in its region if and only if the region is empty, ends with
      data, or is followed by data directly or by none at all. Without that it leaves
      the region, and such a run exists for every input. */
  lemma StaysInRegionIff(c: Config)
    requires ValidConfig(c) && c.mode.SparseFile?
    ensures AlwaysStaysInRegion(c) <==> Contained(c)
  {
    hide Contained, Outcome, ProgramRun, StayedInRegion;
    if Contained(c) {
      forall s: State, envs: seq<Env>, events: seq<Event> | ProgramRun(c, s, envs, events)
        ensures StayedInRegion(c, Outcome(c, s, envs, events))
      {
        OutcomeClaims(c, s, envs, events);
      }
    } else {
      var s := Initial(c, 1, []);
      var envs, events := SomeRunSucceeds(c, s);
      RunStaysInRegionIff(c, s, envs, events);
    }
  }

  /** Data, a hole over the end of the region, and data again: two bytes are asked for,
      and the copy goes on behind them. */
  lemma CopyLeavesRegion(c: Config) returns (s: State, envs: seq<Env>, events: seq<Event>)
    requires c == Config(1, 0, 0, 2, 1, 1, SparseFile, true, [7, 0, 0, 8], [true, false, false, true])
    ensures ProgramRun(c, s, envs, events) && |s.ios| == 1 && FaithfulRun(c, Launch(c, s, envs, 1), events)
    ensures var r := Outcome(c, s, envs, events);
      r.exits != [] && !Halted(r) && r.pos > End(c) && ClaimedBehind(c, r)
  {
    hide ProgramRun, Outcome, FaithfulRun, Launch;
    assert !Contained(c) by {
      assert NextData(c.data, 2) == NextData(c.data, 3) == Some(3);
    }
    s := Initial(c, 1, []);
    envs, events := SomeRunSucceeds(c, s);
    BehindAtExit(c, s, envs, events);
  }

  lemma BehindAtExit(c: Config, s: State, envs: seq<Env>, events: seq<Event>)
    requires c.mode.SparseFile? && ProgramRun(c, s, envs, events) && !Contained(c)
    requires var r := Outcome(c, s, envs, events); r.exits != [] && !Halted(r)
    ensures var r := Outcome(c, s, envs, events); r.pos > End(c) && ClaimedBehind(c, r)
  {
    hide Accounted, Overshoots, Multiple, RoundUp, Contained;
    LaunchOvershoots(c, s, envs, |s.ios|);
    LaunchKeeps(c, s, envs, |s.ios|);
    RunOvershoots(c, Launch(c, s, envs, |s.ios|), events);
    RunKeeps(c, Launch(c, s, envs, |s.ios|), events);
    ExitBehind(c, Outcome(c, s, envs, events));
  }
}
