/** The copy engine as the program runs it: the global job, updated in place by the
    callbacks. Each method is proved against the step function of `DdModel`, so the
    results about runs of that model hold for the job. The assertions are those of
    the source. */
module DdEngine {
  import opened Arith
  import opened ByteOrder
  import opened DdModel
  import opened DdAccounting
  import opened DdCopy
  import opened DdSeekQueue
  import opened DdRuns
  import DdTally

  class Job {
    const c: Config
    const ios: array<Io>
    var pos: nat
    var outstanding: int
    var error: int
    var interrupt: bool
    var incBytes: nat
    var totalBytes: nat
    var exits: seq<int>
    var seekQueue: seq<nat>
    var output: seq<Byte>
    ghost var claims: seq<Claim>

    ghost function View(): State
      reads this, ios
    {
      State(pos, outstanding, error, interrupt, incBytes, totalBytes, exits, ios[..], seekQueue, output, claims)
    }

    ghost predicate Valid()
      reads this
    {
      c.inStart <= pos && c.outBs > 0
    }

    /** The set-up part of `dd_run`. */
    constructor (c: Config, depth: nat, output: seq<Byte>)
      requires ValidConfig(c)
      ensures Valid() && this.c == c && fresh(ios) && ios.Length == depth
      ensures Init(c, View()) && !View().interrupt && View().output == output
    {
      this.c := c;
      var buf := seq(c.unit, _ => 0);
      ios := new Io[depth](_ => Io(0, c.unit, Idle, buf, {}));
      pos, outstanding, error, interrupt := c.inStart, 0, 0, false;
      incBytes, totalBytes, exits, seekQueue := 0, 0, [], [];
      this.output, claims := output, [];
    }

    method Exit(rc: int)
      modifies this`exits
      ensures View() == DdModel.Exit(old(View()), rc)
    {
      exits := exits + [rc];
    }

    method ShowProgress()
      modifies this`totalBytes, this`incBytes
      ensures View() == Progress(old(View()))
    {
      var size := incBytes;
      incBytes := 0;
      totalBytes := totalBytes + size;
    }

    /** The block that ends every callback of a context with nothing left to do. */
    method Stop(show: bool)
      modifies this
      ensures View() == DdModel.Stop(old(View()), show)
    {
      if outstanding == 0 {
        if show && error == 0 { ShowProgress(); }
        Exit(error);
      }
    }

    method Refuse(rc: int)
      modifies this
      ensures View() == Fail(old(View()), rc)
    {
      error := rc;
      if outstanding == 0 { Exit(rc); }
    }

    /** The device accepts an operation for context `i`. */
    method Start(i: nat, stage: Stage)
      requires i < ios.Length
      modifies this`outstanding, ios
      ensures View() == Submit(old(View()), i, stage)
    {
      outstanding := outstanding + 1;
      ios[i] := ios[i].(stage := stage, done := {});
      assert ios[..] == old(ios[..])[i := ios[i]];
    }

    method TargetWrite(i: nat, rc: int)
      requires i < ios.Length
      modifies this, ios
      ensures View() == DdModel.TargetWrite(old(View()), i, rc)
    {
      if error != 0 || interrupt {
        Stop(true);
        return;
      }
      incBytes := incBytes + ios[i].length;
      if rc != 0 { Refuse(rc); } else { Start(i, Writing); }
    }

    method TargetRead(i: nat, rc: int)
      requires i < ios.Length
      modifies this, ios
      ensures View() == DdModel.TargetRead(old(View()), i, rc)
    {
      if error != 0 || interrupt {
        Stop(false);
      } else if rc != 0 {
        Refuse(rc);
      } else {
        Start(i, Reading);
      }
    }

    method TargetPopulateBuffer(i: nat, rc: int)
      requires Valid() && i < ios.Length
      modifies this, ios
      ensures View() == PopulateBuffer(c, old(View()), i, rc)
    {
      var readOffset := pos - c.inStart;
      ios[i] := ios[i].(offset := pos, length := Min(ios[i].length, Sub64(c.copySize, readOffset)));
      assert ios[..] == old(ios[..])[i := ios[i]];
      if ios[i].length == 0 || error != 0 || interrupt {
        Stop(true);
        return;
      }
      pos := pos + ios[i].length;
      claims := claims + [Claim(ios[i].offset, ios[i].length)];
      if Multiple(ios[i].length, c.outBs) {
        TargetRead(i, rc);
      } else if rc != 0 {
        Refuse(rc);
      } else {
        Start(i, Populating);
      }
    }

    method FinalizeTarget(endErr: int)
      modifies this
      ensures View() == FinalizeOutput(c, old(View()), endErr)
    {
      if outstanding > 0 { return; }
      if c.toFile {
        if endErr != 0 {
          error := endErr;
        } else if |output| < c.copySize + c.outStart {
          output := Extend(output, c.copySize + c.outStart);
        }
      }
      if error == 0 { ShowProgress(); }
      Exit(error);
    }

    method SeekFailed(errno: int)
      modifies this
      ensures View() == SeekFail(old(View()), errno)
    {
      if outstanding == 0 {
        error := errno;
        Exit(errno);
      }
    }

    method SetLength(i: nat, n: nat)
      requires i < ios.Length
      modifies ios
      ensures View() == WithLength(old(View()), i, n)
    {
      ios[i] := ios[i].(length := n);
      assert ios[..] == old(ios[..])[i := ios[i]];
    }

    /** The sparse branch of `dd_target_seek` for an input file. */
    method SeekInFile(i: nat, env: Env)
      requires Valid() && i < ios.Length
      modifies this, ios
      ensures View() == SeekFile(c, old(View()), i, env)
    {
      hide PopulateBuffer, NextHole, NextData, FinalizeOutput;
      if env.dataErr != 0 {
        SeekFailed(env.dataErr);
        return;
      }
      var next := NextData(c.data, pos);
      if next.None? {
        FinalizeTarget(env.endErr);
        return;
      }
      if next.value > pos { pos := next.value; }
      if env.holeErr != 0 {
        SeekFailed(env.holeErr);
        return;
      }
      var hole := NextHole(c.data, pos);
      SetLength(i, if hole > pos then Min(c.unit, hole - pos) else c.unit);
      TargetPopulateBuffer(i, env.rc);
    }

    /** The sparse branch of `dd_target_seek` for an input bdev. */
    method SeekInBdev(i: nat, seekRc: int)
      requires i < ios.Length
      modifies this, ios
      ensures View() == SeekBdev(old(View()), i, seekRc)
    {
      var alone := seekQueue == [];
      seekQueue := seekQueue + [i];
      if alone && seekRc == 0 {
        Start(i, SeekingData);
      } else {
        ios[i] := ios[i].(stage := Queued, done := {});
        assert ios[..] == old(ios[..])[i := ios[i]];
        if alone { Refuse(seekRc); }
      }
    }

    method TargetSeek(i: nat, env: Env)
      requires Valid() && i < ios.Length
      modifies this, ios
      ensures View() == DdModel.TargetSeek(c, old(View()), i, env) && Valid()
    {
      var readOffset := pos - c.inStart;
      if c.mode.Dense? {
        TargetPopulateBuffer(i, env.rc);
      } else if Sub64(c.copySize, readOffset) == 0 || error != 0 || interrupt {
        Stop(true);
      } else if c.mode.SparseFile? {
        SeekInFile(i, env);
      } else {
        SeekInBdev(i, env.seekRc);
      }
    }

    method Finish(i: nat)
      requires i < ios.Length
      modifies ios
      ensures View() == Park(old(View()), i)
    {
      ios[i] := ios[i].(stage := Idle, done := {});
      assert ios[..] == old(ios[..])[i := ios[i]];
    }

    /** `dd_complete_poll`, after the AIO poller has checked the transfer size. */
    method CompletePoll(i: nat, flagged: bool, env: Env)
      requires Steady(c, View()) && i < ios.Length && InChain(ios[i])
      modifies this, ios
      ensures old(Valid()) && View() == DdModel.Complete(c, old(View()), i, flagged, env)
    {
      hide Steady, DdModel.TargetSeek, DdModel.TargetRead, DdModel.TargetWrite;
      SteadyCounts(c, View(), i);
      var stage := ios[i].stage;
      if flagged { error := -ENOSPC; }
      assert outstanding > 0;
      outstanding := outstanding - 1;
      Finish(i);
      if stage.Populating? {
        TargetRead(i, env.rc);
      } else if stage.Reading? {
        TargetWrite(i, env.rc);
      } else {
        TargetSeek(i, env);
      }
    }

    /** `_dd_bdev_seek_data_done`. */
    method BdevSeekDataDone(i: nat, env: Env)
      requires Steady(c, View()) && i < ios.Length && Seeking(ios[i])
      modifies this, ios
      ensures c.inBs > 0 && old(seekQueue) != [] && View() == SeekDataDone(c, old(View()), i, env)
    {
      hide Steady;
      SteadyCounts(c, View(), i);
      SteadySeeks(c, View(), i);
      Finish(i);
      if error != 0 || interrupt {
        seekQueue := seekQueue[1..];
        Stop(true);
        return;
      }
      assert outstanding > 0;
      outstanding := outstanding - 1;
      var next := NextData(c.data, (pos / c.inBs) * c.inBs);
      if next.None? {
        seekQueue := seekQueue[1..];
        FinalizeTarget(env.endErr);
        return;
      }
      pos := (next.value / c.inBs) * c.inBs;
      if env.seekRc != 0 {
        seekQueue := seekQueue[1..];
        Refuse(env.seekRc);
      } else {
        Start(i, SeekingHole);
      }
    }

    /** The head of the queue starts its data seek if input is left. */
    method StartNext(seekRc: int)
      requires seekQueue != [] ==> seekQueue[0] < ios.Length
      modifies this, ios
      ensures View() == StartNextSeek(c, old(View()), seekRc)
    {
      if seekQueue != [] && pos < |c.input| {
        if seekRc != 0 {
          Refuse(seekRc);
        } else {
          Start(seekQueue[0], SeekingData);
        }
      }
    }

    /** `_dd_bdev_seek_hole_done`. */
    method BdevSeekHoleDone(i: nat, env: Env)
      requires Steady(c, View()) && i < ios.Length && Seeking(ios[i])
      modifies this, ios
      ensures c.inBs > 0 && old(Valid() && seekQueue != [] && pos <= |c.data| && (|seekQueue| > 1 ==> seekQueue[1] < ios.Length))
      ensures View() == SeekHoleDone(c, old(View()), i, env)
    {
      hide Steady, PopulateBuffer, NextHole, StartNextSeek;
      SteadyCounts(c, View(), i);
      SteadySeeks(c, View(), i);
      seekQueue := seekQueue[1..];
      Finish(i);
      if error != 0 || interrupt {
        Stop(true);
        return;
      }
      assert outstanding > 0;
      outstanding := outstanding - 1;
      var hole := NextHole(c.data, (pos / c.inBs) * c.inBs);
      SetLength(i, if hole == |c.data| || hole < pos then c.unit else Min(c.unit, hole - pos));
      TargetPopulateBuffer(i, env.rc);
      StartNext(env.seekRc);
    }

    /** The loop of `dd_run` that starts every context. */
    method LaunchAll(envs: seq<Env>)
      requires Valid() && |envs| == ios.Length
      modifies this, ios
      ensures View() == Launch(c, old(View()), envs, ios.Length)
    {
      hide DdModel.TargetSeek;
      for i := 0 to ios.Length
        invariant Valid() && View() == Launch(c, old(View()), envs, i)
      {
        TargetSeek(i, envs[i]);
      }
    }

    /** The device moves byte `k` of the transfer of context `i`. */
    method MoveByte(i: nat, k: nat)
      requires i < ios.Length && c.inStart <= ios[i].offset && k < |ios[i].buf|
      modifies this`output, ios
      ensures View() == Move(c, old(View()), i, k)
    {
      var io := ios[i];
      ios[i] := MoveIo(c, output, io, k);
      output := MoveOutput(c, output, io, k);
      assert ios[..] == old(ios[..])[i := ios[i]];
    }

    /** One event. */
    method Handle(e: Event)
      requires Steady(c, View()) && Shape(c, View()) && Enabled(c, View(), e)
      modifies this, ios
      ensures View() == Step(c, old(View()), e) && Steady(c, View())
    {
      hide DdModel.Complete, Move, XferLen, SeekDataDone, SeekHoleDone, Steady;
      StepSteady(c, View(), e);
      match e
      case Transfer(i, k) => MoveByte(i, k);
      case Completion(i, flagged, env) => CompletePoll(i, flagged, env);
      case SeekDone(i, env) =>
        if ios[i].stage.SeekingData? { BdevSeekDataDone(i, env); } else { BdevSeekHoleDone(i, env); }
      case Tick => ShowProgress();
      case Interrupt => interrupt := true;
    }

    /** A whole run of the program on a job that has just been set up, in any mode and
        through any errors. If it has called `dd_exit` without an error or an interrupt,
        the total is the number of bytes to copy and, if its transfers really happened,
        the output is the copy. */
    method RunProgram(envs: seq<Env>, events: seq<Event>)
      requires AnyRun(c, View(), envs, events)
      modifies this, ios
      ensures View() == AnyOutcome(c, old(View()), envs, events) && Steady(c, View())
      ensures exits != [] && error == 0 && !interrupt && Contained(c) ==> totalBytes == DdTally.CountWanted(c, End(c))
      ensures exits != [] && error == 0 && !interrupt && c.mode.Dense? ==> totalBytes == c.copySize
      ensures var faithful := old(FaithfulRun(c, Launch(c, View(), envs, |View().ios|), events));
        exits != [] && error == 0 && !interrupt && Copyable(c) && faithful ==> Copied(c, old(View()), View())
    {
      hide Step, Enabled, Shape, Launch, Copyable, Contained, Steady, InBlocks, Copied, DdTally.CountWanted, FaithfulRun;
      ghost var start := View();
      LaunchSteady(c, start, envs, events);
      LaunchAll(envs);
      ghost var launched := View();
      var n := 0;
      while n < |events|
        invariant n <= |events| && Steady(c, View())
        invariant CanRun(c, View(), events[n..]) && Run(c, View(), events[n..]) == Run(c, launched, events)
      {
        assert events[n..][1..] == events[n + 1..];
        Handle(events[n]);
        n := n + 1;
      }
      assert events[n..] == [];
      if exits != [] && error == 0 && !interrupt {
        if c.mode.Dense? { DdTally.TotalIsExact(c, start, envs, events); }
        if Contained(c) { AnyTotalIsExact(c, start, envs, events); }
        if Copyable(c) && FaithfulRun(c, launched, events) { AnyCopyIsCorrect(c, start, envs, events); }
      }
    }
  }
}
