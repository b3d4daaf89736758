/** Runs in any of the three modes: what every event keeps, and the main results for all
    of them at once. */
module DdRuns {
  import opened Arith
  import opened ByteOrder
  import opened DdModel
  import opened DdAccounting
  import opened DdCopy
  import opened DdSeekQueue
  import DdTally

  /** What every event keeps: the count of operations in flight, or the order of the
      seek queue. */
  ghost predicate Steady(c: Config, s: State) {
    if c.mode.SparseBdev? then Ordered(c, s) else Accounted(c, s)
  }

  /** Whatever is in flight is counted: the assertion of the completion callbacks. */
  lemma SteadyCounts(c: Config, s: State, i: nat)
    requires Steady(c, s) && i < |s.ios| && InFlight(s.ios[i])
    ensures s.outstanding > 0 && c.inStart <= s.pos && c.outBs > 0
  {
    hide QueueShape, Live, GoodIos, Sum, DdTally.Ledger, InBlocks;
    if c.mode.SparseBdev? { OrderedPositive(c, s, i); } else { OutstandingPositive(c, s, i); }
  }

  /** A seek in flight belongs to a bdev and to the head of the queue. */
  lemma SteadySeeks(c: Config, s: State, i: nat)
    requires Steady(c, s) && i < |s.ios| && Seeking(s.ios[i])
    ensures c.mode.SparseBdev? && c.inBs > 0 && s.pos <= |c.data|
    ensures s.seekQueue != [] && s.seekQueue[0] == i && (|s.seekQueue| > 1 ==> s.seekQueue[1] < |s.ios|)
  {
    hide Live, Sum, DdTally.Ledger, InBlocks;
    if c.mode.SparseBdev? { SeekerIsHead(s.ios, s.seekQueue, i); }
  }

  lemma StepSteady(c: Config, s: State, e: Event)
    requires Steady(c, s) && Shape(c, s) && Enabled(c, s, e)
    ensures Steady(c, Step(c, s, e))
  {
    hide Ordered, Accounted, Shape, Enabled, Step;
    if c.mode.SparseBdev? { StepOrdered(c, s, e); } else { StepKeeps(c, s, e); }
  }

  /** A run in any of the three modes. */
  ghost predicate AnyRun(c: Config, s: State, envs: seq<Env>, events: seq<Event>) {
    if c.mode.SparseBdev? then BdevRun(c, s, envs, events) else ProgramRun(c, s, envs, events)
  }

  ghost function AnyOutcome(c: Config, s: State, envs: seq<Env>, events: seq<Event>): State
    requires AnyRun(c, s, envs, events)
  {
    Run(c, Launch(c, s, envs, |s.ios|), events)
  }

  lemma LaunchSteady(c: Config, s: State, envs: seq<Env>, events: seq<Event>)
    requires AnyRun(c, s, envs, events)
    ensures Steady(c, Launch(c, s, envs, |s.ios|))
  {
    hide Ordered, Accounted, Launch, CanRun, InBlocks;
    if c.mode.SparseBdev? { LaunchOrdered(c, s, envs, |s.ios|); } else { LaunchKeeps(c, s, envs, |s.ios|); }
  }

  /** What a run without an error or an interrupt has done when it has called `dd_exit`. */
  ghost predicate Copied(c: Config, s: State, r: State)
    requires c.outBs > 0
  {
    && OutsideKept(c, s.output, r.output)
    && forall k: nat :: k < c.copySize ==>
         OutByte(c, r.output, k) == if Wanted(c, c.inStart + k) then InByte(c, k) else OutByte(c, s.output, k)
  }

  lemma AnyCopyIsCorrect(c: Config, s: State, envs: seq<Env>, events: seq<Event>)
    requires AnyRun(c, s, envs, events) && Copyable(c) && FaithfulRun(c, Launch(c, s, envs, |s.ios|), events)
    requires var r := AnyOutcome(c, s, envs, events); r.exits != [] && !Halted(r)
    ensures Copied(c, s, AnyOutcome(c, s, envs, events))
  {
    hide Launch, CanRun, FaithfulRun, OutsideKept, OutByte, InByte, InBlocks;
    if c.mode.SparseBdev? { BdevCopyIsCorrect(c, s, envs, events); } else { CopyIsCorrect(c, s, envs, events); }
  }

  /** In every mode the total of a run without an error is the number of bytes to copy. */
  lemma AnyTotalIsExact(c: Config, s: State, envs: seq<Env>, events: seq<Event>)
    requires AnyRun(c, s, envs, events) && Contained(c)
    requires var r := AnyOutcome(c, s, envs, events); r.exits != [] && !Halted(r)
    ensures AnyOutcome(c, s, envs, events).totalBytes == DdTally.CountWanted(c, End(c))
  {
    hide Launch, CanRun, InBlocks;
    if c.mode.SparseBdev? { BdevTotalIsExact(c, s, envs, events); } else { DdTally.TotalIsExact(c, s, envs, events); }
  }
}
