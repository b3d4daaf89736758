/** Output transfers are rounded up to whole output blocks. When they stay inside the
    buffers, for a dense copy exactly. */
module DdBuffers {
  import opened Arith
  import opened ByteOrder
  import opened DdModel
  import opened DdAccounting
  import opened DdProgress
  import opened DdTally
  import DdSetup

  /** No context holds a range longer than the whole copy. */
  ghost predicate Short(c: Config, s: State) {
    forall i :: 0 <= i < |s.ios| && InChain(s.ios[i]) ==> s.ios[i].length <= c.copySize
  }

  lemma PopulateShort(c: Config, s: State, i: nat, rc: int)
    requires ValidConfig(c) && c.inStart <= s.pos <= End(c) && i < |s.ios| && Short(c, s)
    ensures Short(c, PopulateBuffer(c, s, i, rc))
  {
    hide RoundUp, Multiple, Sub64;
  }

  lemma SeekShort(c: Config, s: State, i: nat, env: Env)
    requires Ledger(c, s, 0) && Contained(c) && !c.mode.SparseBdev? && i < |s.ios| && !InChain(s.ios[i]) && Short(c, s)
    ensures Short(c, TargetSeek(c, s, i, env))
  {
    hide Tiled, Tallied, Contained, NextData, NextHole, PopulateBuffer, Extend;
    if c.mode.Dense? {
      PopulateShort(c, s, i, env.rc);
    } else if Remaining(c, s) != 0 && !Halted(s) && NextData(c.data, s.pos).Some? {
      DataInside(c, s);
      var t := s.(pos := NextData(c.data, s.pos).value);
      var hole := NextHole(c.data, t.pos);
      PopulateShort(c, WithLength(t, i, Min(c.unit, hole - t.pos)), i, env.rc);
    }
  }

  lemma StepShort(c: Config, s: State, e: Event)
    requires Accounted(c, s) && !c.mode.SparseBdev? && Ledger(c, s, 0) && Contained(c) && Short(c, s)
    requires Shape(c, s) && Enabled(c, s, e)
    ensures Short(c, Step(c, s, e))
  {
    hide RoundUp, Multiple, Sub64, TargetSeek, Sum, Tiled, Contained, CountWanted;
    if e.Completion? {
      var t := Park(s, e.i).(outstanding := s.outstanding - 1, error := if e.flagged then -ENOSPC else s.error);
      if s.ios[e.i].stage.Writing? {
        SumUpdate(Pending, s.ios, e.i, t.ios[e.i]);
        SameTiles(c, s, t);
        SeekShort(c, t, e.i, e.env);
      }
    } else if e.SeekDone? {
      assert false;
    }
  }

  lemma {:induction false} RunShort(c: Config, s: State, events: seq<Event>)
    requires Accounted(c, s) && !c.mode.SparseBdev? && Ledger(c, s, 0) && Contained(c) && Short(c, s) && CanRun(c, s, events)
    ensures Short(c, Run(c, s, events))
    decreases |events|
  {
    hide Accounted, Step, Short, Shape, Enabled, Tiled, Tallied, Contained;
    if events != [] {
      StepKeeps(c, s, events[0]);
      StepTallies(c, s, events[0]);
      StepShort(c, s, events[0]);
      RunShort(c, Step(c, s, events[0]), events[1..]);
    }
  }

  lemma {:induction false} LaunchShort(c: Config, s: State, envs: seq<Env>, n: nat)
    requires ValidConfig(c) && !c.mode.SparseBdev? && Contained(c) && Init(c, s) && n <= |s.ios| == |envs|
    ensures Short(c, Launch(c, s, envs, n))
  {
    hide RoundUp, Multiple, Sub64, TargetSeek, Measure, Contained, Accounted, Ledger;
    if n > 0 {
      LaunchKeeps(c, s, envs, n - 1);
      LaunchTallies(c, s, envs, n - 1);
      LaunchShort(c, s, envs, n - 1);
      SeekShort(c, Launch(c, s, envs, n - 1), n - 1, envs[n - 1]);
    }
  }

  /** A shorter range does not need more blocks. */
  lemma RoundUpMono(m: nat, n: nat, bs: nat)
    requires bs > 0 && m <= n
    ensures RoundUp(m, bs) <= RoundUp(n, bs)
  {
    hide RoundUp, Multiple;
    RoundUpBounds(m, bs);
    RoundUpBounds(n, bs);
    if RoundUp(m, bs) < n + bs { RoundUpLeast(n, bs, RoundUp(m, bs)); }
  }

  /** When blocks fit and the region is contained, every transfer of every run fits. */
  lemma FittingRun(c: Config, s: State, envs: seq<Env>, events: seq<Event>)
    requires ProgramRun(c, s, envs, events) && Contained(c) && BlocksFit(c)
    ensures TransfersFit(c, Outcome(c, s, envs, events))
  {
    hide RoundUp, Multiple, Launch, CanRun, XferLen, Contained, Ledger;
    InFlightAccounting(c, s, envs, events);
    if !Multiple(c.unit, c.outBs) {
      var t := Launch(c, s, envs, |s.ios|);
      LaunchKeeps(c, s, envs, |s.ios|);
      LaunchTallies(c, s, envs, |s.ios|);
      LaunchShort(c, s, envs, |s.ios|);
      RunShort(c, t, events);
      RunKeeps(c, t, events);
      var r := Outcome(c, s, envs, events);
      forall i | 0 <= i < |r.ios| && InChain(r.ios[i]) ensures XferLen(c, r.ios[i]) <= |r.ios[i].buf| {
        assert GoodIo(c, r.ios[i]);
        ShortFits(c, r.ios[i]);
      }
    }
  }

  lemma ShortFits(c: Config, io: Io)
    requires c.outBs > 0 && io.length <= c.copySize < c.unit && RoundUp(c.copySize, c.outBs) <= c.unit
    ensures XferLen(c, io) <= c.unit
  {
    hide RoundUp;
    RoundUpMono(io.length, c.copySize, c.outBs);
  }

  /** When blocks do not fit, the first transfer of every run is longer than its
      buffer, and still in flight when the launch is over. */
  lemma {:induction false} FirstTransferOverruns(c: Config, s: State, envs: seq<Env>, n: nat)
    requires ValidConfig(c) && c.mode.Dense? && Init(c, s) && !s.interrupt && !BlocksFit(c)
    requires 1 <= n <= |s.ios| == |envs| && envs[0].rc == 0
    ensures var io := Launch(c, s, envs, n).ios[0];
      io.stage.Populating? && XferLen(c, io) == RoundUp(Min(c.unit, c.copySize), c.outBs) > |io.buf|
  {
    hide RoundUp, Multiple, TargetSeek;
    if n == 1 {
      assert Launch(c, s, envs, 0) == s;
      FirstClaim(c, s, envs[0]);
    } else {
      FirstTransferOverruns(c, s, envs, n - 1);
      SeekOthers(c, Launch(c, s, envs, n - 1), n - 1, envs[n - 1]);
    }
  }

  lemma FirstClaim(c: Config, s: State, env: Env)
    requires ValidConfig(c) && c.mode.Dense? && Init(c, s) && !s.interrupt && !BlocksFit(c) && |s.ios| >= 1 && env.rc == 0
    ensures var io := TargetSeek(c, s, 0, env).ios[0];
      io.stage.Populating? && XferLen(c, io) == RoundUp(Min(c.unit, c.copySize), c.outBs) > |io.buf|
  {
    hide RoundUp, Multiple, Sub64;
    var n := Min(c.unit, c.copySize);
    RoundUpBounds(n, c.outBs);
    RemainingAtStart(c, s);
    MultipleMod(0, c.outBs);
    RoundUpBounds(0, c.outBs);
    assert n > 0;
    assert !Multiple(n, c.outBs);
  }

  ghost predicate AlwaysFits(c: Config) {
    c.outBs > 0 &&
    forall s: State, envs: seq<Env>, events: seq<Event> ::
      ProgramRun(c, s, envs, events) ==> TransfersFit(c, Outcome(c, s, envs, events))
  }

  /** In every reachable state of a dense copy every transfer fits its buffer if and
      only if whole output blocks fill the buffer, or the whole copy is shorter than a
      unit and fits even when rounded up. */
  lemma TransfersFitIff(c: Config)
    requires ValidConfig(c) && c.mode.Dense?
    ensures AlwaysFits(c) <==> BlocksFit(c)
  {
    hide RoundUp, Multiple, Launch, XferLen;
    if BlocksFit(c) {
      forall s: State, envs: seq<Env>, events: seq<Event> | ProgramRun(c, s, envs, events)
        ensures TransfersFit(c, Outcome(c, s, envs, events))
      {
        FittingRun(c, s, envs, events);
      }
    } else {
      var s := Initial(c, 1, []);
      assert ProgramRun(c, s, Accepting(1), []);
      FirstTransferOverruns(c, s, Accepting(1), 1);
      assert !TransfersFit(c, Outcome(c, s, Accepting(1), []));
    }
  }

  /** A unit of twelve input blocks of 512 bytes, copied to 4096-byte blocks. */
  const ODD := DdSetup.Options(6144, 0, 0, 0, 1)

  /** The set-up accepts it, and its only transfer reads 8192 bytes into 6144. */
  lemma AcceptedCopyOverruns(c: Config)
    requires c == Config(6144, 0, 0, 6144, 512, 4096, Dense, false, seq(6144, _ => 0), seq(6144, _ => true))
    ensures DdSetup.Prepare(ODD, DdSetup.BdevTarget(512, 12), DdSetup.BdevTarget(4096, 2)) ==
              DdSetup.Ready(c.inStart, c.outStart, c.copySize, 1, c.inBs, c.outBs)
    ensures ProgramRun(c, Initial(c, 1, []), Accepting(1), [])
    ensures var io := Outcome(c, Initial(c, 1, []), Accepting(1), []).ios[0];
      io.stage.Populating? && XferLen(c, io) == 8192 && |io.buf| == 6144
  {
    FirstTransferOverruns(c, Initial(c, 1, []), Accepting(1), 1);
  }
}
