/** The set-up arithmetic of `dd_run`, `dd_open_file` and `dd_open_bdev`: which
    requests are refused, the region that is copied, and the queue depth that the
    copy is left with. */
module DdSetup {
  import opened Arith
  import opened DdModel
  import opened DdAccounting
  import opened DdProgress

  /** What opening a target reports about it. */
  datatype Target = FileTarget(blockLen: nat, size: nat) | BdevTarget(blockSize: nat, numBlocks: nat)

  datatype Options = Options(unit: nat, count: nat, skip: nat, seek: nat, depth: nat)

  /** A target with its block size, its total size and the queue depth clamped to it. */
  datatype Opened = Opened(blockSize: nat, total: nat, depth: nat)

  datatype Setup = Refused(rc: int) | Ready(inPos: nat, outPos: nat, copySize: nat, depth: nat, inBs: nat, outBs: nat)

  const EINVAL := 22
  const TWO63: nat := 0x8000_0000_0000_0000

  function Wrap(x: int): nat {
    x % TWO64
  }

  /** `(total / unit) - skip + 1` in unsigned arithmetic. */
  function UnitsLeft(o: Options, total: nat, skip: nat): nat
    requires o.unit > 0
  {
    Wrap(total / o.unit - skip + 1)
  }

  function ClampCount(o: Options, depth: nat): nat {
    if o.count != 0 then Min(depth, o.count) else depth
  }

  function Open(o: Options, t: Target, depth: nat, skip: nat, input: bool): Opened
    requires o.unit > 0
  {
    match t
    case FileTarget(blockLen, size) =>
      var total := if size == 0 then Wrap(o.unit * o.count) else size;
      Opened(Max(blockLen, 1), total, ClampCount(o, if input then Min(depth, UnitsLeft(o, total, skip)) else depth))
    case BdevTarget(blockSize, numBlocks) =>
      var total := Wrap(numBlocks * blockSize);
      Opened(blockSize, total, ClampCount(o, Min(depth, UnitsLeft(o, total, skip))))
  }

  /** `dd_run` up to the allocation of the contexts. */
  function Prepare(o: Options, input: Target, output: Target): Setup
    requires o.unit > 0
  {
    var i := Open(o, input, o.depth, o.skip, true);
    var writeSize := Wrap(o.count * o.unit);
    var inPos := Wrap(o.skip * o.unit);
    if input.BdevTarget? && inPos > i.total then Refused(-ENOSPC)
    else if o.count != 0 && input.BdevTarget? && Wrap(writeSize + inPos) > i.total then Refused(-ENOSPC)
    else
      var copySize := if o.count != 0 then writeSize else Sub64(i.total, inPos);
      var outPos := Wrap(o.seek * o.unit);
      var p := Open(o, output, i.depth, o.seek, false);
      if output.BdevTarget? && outPos > p.total then Refused(-ENOSPC)
      else if output.BdevTarget? && o.count != 0 && Wrap(writeSize + outPos) > p.total then Refused(-ENOSPC)
      else if p.blockSize > o.unit || i.blockSize > o.unit then Refused(-EINVAL)
      else if input.BdevTarget? && i.blockSize > 0 && o.unit % i.blockSize != 0 then Refused(-EINVAL)
      else Ready(inPos, outPos, copySize, p.depth, i.blockSize, p.blockSize)
  }

  function Total(o: Options, t: Target): nat {
    match t
    case FileTarget(_, size) => if size == 0 then o.unit * o.count else size
    case BdevTarget(blockSize, numBlocks) => numBlocks * blockSize
  }

  /** The byte counts of the request fit a signed 64-bit file offset. */
  ghost predicate Representable(o: Options, input: Target, output: Target) {
    && 0 < o.unit
    && Total(o, input) < TWO63 && Total(o, output) < TWO63
    && o.count * o.unit + o.skip * o.unit < TWO63 && o.count * o.unit + o.seek * o.unit < TWO63
  }

  lemma QuotientBound(a: nat, k: nat, d: nat)
    requires d > 0
    ensures k * d <= a <==> k <= a / d
  {
    DivMod(a, d);
    if k <= a / d { MulMono(k, a / d, d); }
    else { MulMono(a / d + 1, k, d); }
  }

  /** The clamp to a target is at least one when the start lies in the target, and
      exactly one when nothing lies behind the start. */
  lemma UnitsLeftBounds(o: Options, total: nat, skip: nat)
    requires o.unit > 0 && skip * o.unit <= total < TWO63
    ensures UnitsLeft(o, total, skip) == total / o.unit - skip + 1 >= 1
    ensures total == skip * o.unit ==> UnitsLeft(o, total, skip) == 1
  {
    QuotientBound(total, skip, o.unit);
    DivMod(total, o.unit);
    MulMono(1, o.unit, total / o.unit);
    assert total / o.unit <= total;
    if total == skip * o.unit { MultipleMod(skip, o.unit); }
  }

  lemma Unwrapped(o: Options, input: Target, output: Target)
    requires Representable(o, input, output)
    ensures Wrap(o.count * o.unit) == o.count * o.unit && Wrap(o.skip * o.unit) == o.skip * o.unit
    ensures Wrap(o.seek * o.unit) == o.seek * o.unit
    ensures Open(o, input, o.depth, o.skip, true).total == Total(o, input)
    ensures forall depth: nat :: Open(o, output, depth, o.seek, false).total == Total(o, output)
  {
    assert o.unit * o.count == o.count * o.unit;
    assert o.skip * o.unit >= 0 && o.seek * o.unit >= 0 && o.count * o.unit >= 0;
    SmallWrap(o.count * o.unit);
    SmallWrap(o.skip * o.unit);
    SmallWrap(o.seek * o.unit);
    SmallWrap(Total(o, input));
    SmallWrap(Total(o, output));
  }

  lemma SmallWrap(x: nat)
    ensures x < TWO64 ==> Wrap(x) == x
  {
  }

  /** A request that is accepted with its start inside the input leaves at least one
      context, and only one if there is nothing to copy: what a single `dd_exit`
      needs. The program itself checks the start for an input bdev only. */
  lemma ClampsSuffice(o: Options, input: Target, output: Target)
    requires Representable(o, input, output) && o.depth >= 1
    requires Prepare(o, input, output).Ready?
    requires o.skip * o.unit <= Total(o, input)
    ensures var p := Prepare(o, input, output);
      && p.depth >= 1
      && (p.copySize == 0 ==> p.depth == 1)
      && p.copySize == (if o.count != 0 then o.count * o.unit else Total(o, input) - o.skip * o.unit)
  {
    hide UnitsLeft;
    Unwrapped(o, input, output);
    UnitsLeftBounds(o, Total(o, input), o.skip);
    if output.BdevTarget? { UnitsLeftBounds(o, Total(o, output), o.seek); }
    if o.count != 0 { MulMono(1, o.count, o.unit); }
  }

  /** An accepted request ends up with no context at all exactly when none was asked
      for or when the start is in the unit behind the one that holds the end of the
      input file. */
  lemma DepthZeroIff(o: Options, input: Target, output: Target)
    requires Representable(o, input, output) && Prepare(o, input, output).Ready?
    ensures Prepare(o, input, output).depth == 0 <==>
              o.depth == 0 || (input.FileTarget? && o.skip == Total(o, input) / o.unit + 1)
  {
    hide UnitsLeft;
    Unwrapped(o, input, output);
    var total := Total(o, input);
    assert UnitsLeft(o, total, o.skip) == 0 <==> o.skip == total / o.unit + 1 by { UnitsLeftZero(o, total); }
    if input.BdevTarget? { QuotientBound(total, o.skip, o.unit); }
    if output.BdevTarget? { UnitsLeftBounds(o, Total(o, output), o.seek); }
  }

  /** Without any context no event but a tick or a signal can happen: nothing is copied,
      and the copy chain never calls `dd_exit`. */
  lemma {:induction false} NoContextsNoCopy(c: Config, s: State, events: seq<Event>)
    requires s.ios == [] && CanRun(c, s, events)
    ensures var r := Run(c, s, events);
      r.exits == s.exits && r.claims == s.claims && r.output == s.output && r.outstanding == s.outstanding
    decreases |events|
  {
    if events != [] { NoContextsNoCopy(c, Step(c, s, events[0]), events[1..]); }
  }

  /** Two units of input, of which three are skipped: accepted, and left without any
      context and with almost 2^64 bytes to copy. */
  lemma SkippedInputLeavesNoContext()
    ensures Prepare(Options(512, 0, 3, 0, 2), FileTarget(1, 1024), FileTarget(1, 0)) ==
              Ready(1536, 0, TWO64 - 512, 0, 1, 1)
  {
  }

  // ------------------------------------------------- what the set-up decides, exactly

  /** The block size of a target; that of a file is at least one. */
  function NativeBlock(t: Target): nat {
    match t
    case FileTarget(blockLen, _) => if blockLen == 0 then 1 else blockLen
    case BdevTarget(blockSize, _) => blockSize
  }

  /** A start and, with a count, an end that lie inside the target. */
  predicate InTarget(o: Options, t: Target, skip: nat) {
    skip * o.unit <= Total(o, t) && (o.count != 0 ==> o.count * o.unit + skip * o.unit <= Total(o, t))
  }

  /** A bdev is asked for something outside. */
  predicate NoSpace(o: Options, input: Target, output: Target) {
    (input.BdevTarget? && !InTarget(o, input, o.skip)) || (output.BdevTarget? && !InTarget(o, output, o.seek))
  }

  /** The unit is smaller than a block, or not made of blocks of an input bdev. */
  predicate BadUnit(o: Options, input: Target, output: Target) {
    || NativeBlock(output) > o.unit || NativeBlock(input) > o.unit
    || (input.BdevTarget? && input.blockSize > 0 && o.unit % input.blockSize != 0)
  }

  /** The number `d` as a limit, where a negative one is none: it wraps around to a
      number that no queue depth exceeds. */
  function Limited(depth: nat, d: int): nat {
    if 0 <= d < depth then d else depth
  }

  /** The units from the start to the end of a target, and one more. */
  function UnitsFrom(o: Options, t: Target, skip: nat): int
    requires o.unit > 0
  {
    Total(o, t) / o.unit - skip + 1
  }

  lemma LimitedUnits(o: Options, t: Target, skip: nat, depth: nat)
    requires o.unit > 0 && Total(o, t) < TWO63 && skip * o.unit < TWO63 && depth <= TWO63
    ensures Min(depth, UnitsLeft(o, Total(o, t), skip)) == Limited(depth, UnitsFrom(o, t, skip))
  {
    MulMono(1, o.unit, skip);
    DivMod(Total(o, t), o.unit);
    MulMono(1, o.unit, Total(o, t) / o.unit);
    var d := UnitsFrom(o, t, skip);
    assert 0 - TWO63 < d <= TWO63;
    if d >= 0 { SmallWrap(d); } else { NegativeWrap(d); }
  }

  lemma NegativeWrap(d: int)
    requires 0 - TWO63 < d < 0
    ensures Wrap(d) == TWO64 + d > TWO63
  {
  }

  /** The set-up, for every request whose byte counts fit: which requests are refused and
      with which status, and what an accepted one is turned into. The depth is the
      requested one, limited by the count and by the units left in the input and in an
      output bdev. */
  lemma PrepareIsExact(o: Options, input: Target, output: Target)
    requires Representable(o, input, output) && o.depth < 0x1_0000_0000
    ensures var p := Prepare(o, input, output);
      && (NoSpace(o, input, output) <==> p == Refused(-ENOSPC))
      && (!NoSpace(o, input, output) && BadUnit(o, input, output) <==> p == Refused(-EINVAL))
      && (!NoSpace(o, input, output) && !BadUnit(o, input, output) <==> p.Ready?)
      && (p.Ready? ==>
            && p.inPos == o.skip * o.unit && p.outPos == o.seek * o.unit
            && p.copySize == (if o.count != 0 then o.count * o.unit else Sub64(Total(o, input), o.skip * o.unit))
            && p.inBs == NativeBlock(input) && p.outBs == NativeBlock(output)
            && var counted := if o.count != 0 then Min(o.depth, o.count) else o.depth;
               var limited := Limited(counted, UnitsFrom(o, input, o.skip));
               p.depth == if output.BdevTarget? then Limited(limited, UnitsFrom(o, output, o.seek)) else limited)
  {
    hide UnitsLeft, Sub64;
    Unwrapped(o, input, output);
    assert o.skip * o.unit >= 0 && o.seek * o.unit >= 0 && o.count * o.unit >= 0;
    SmallWrap(o.count * o.unit + o.skip * o.unit);
    SmallWrap(o.count * o.unit + o.seek * o.unit);
    var i := Open(o, input, o.depth, o.skip, true);
    LimitedUnits(o, input, o.skip, o.depth);
    LimitedUnits(o, output, o.seek, i.depth);
    hide Limited, UnitsFrom, Total, Wrap;
    DepthClamps(o, input, output);
  }

  /** The clamps can be applied in any order. */
  lemma DepthClamps(o: Options, input: Target, output: Target)
    requires Representable(o, input, output) && o.depth < 0x1_0000_0000
    ensures var i := Open(o, input, o.depth, o.skip, true);
      var p := Open(o, output, i.depth, o.seek, false);
      var counted := if o.count != 0 then Min(o.depth, o.count) else o.depth;
      var limited := Limited(counted, UnitsFrom(o, input, o.skip));
      && i.depth == limited
      && p.depth == if output.BdevTarget? then Limited(limited, UnitsFrom(o, output, o.seek)) else limited
  {
    hide UnitsLeft;
    Unwrapped(o, input, output);
    assert o.skip * o.unit >= 0 && o.seek * o.unit >= 0 && o.count * o.unit >= 0;
    LimitedUnits(o, input, o.skip, o.depth);
    var i := Open(o, input, o.depth, o.skip, true);
    LimitedUnits(o, output, o.seek, i.depth);
  }

  lemma UnitsLeftZero(o: Options, total: nat)
    requires o.unit > 0 && total < TWO63 && o.skip * o.unit < TWO63
    ensures UnitsLeft(o, total, o.skip) == 0 <==> o.skip == total / o.unit + 1
  {
    MulMono(1, o.unit, total / o.unit);
    MulMono(1, o.unit, o.skip);
    DivMod(total, o.unit);
    assert o.skip < TWO63 && total / o.unit < TWO63;
  }

  /** A dense copy set up by the program, with its first submission accepted, calls
      `dd_exit` exactly once. */
  lemma PreparedCopyExitsOnce(o: Options, input: Target, output: Target, c: Config, s: State, envs: seq<Env>, events: seq<Event>)
    requires Representable(o, input, output) && o.depth >= 1 && Prepare(o, input, output).Ready?
    requires o.skip * o.unit <= Total(o, input)
    requires ProgramRun(c, s, envs, events) && c.mode.Dense?
    requires var p := Prepare(o, input, output); c.copySize == p.copySize && |s.ios| == p.depth
    requires !s.interrupt && (|envs| >= 1 ==> envs[0].rc == 0)
    requires Outcome(c, s, envs, events).outstanding == 0
    ensures |Outcome(c, s, envs, events).exits| == 1
  {
    hide Prepare, ProgramRun, Outcome, Representable;
    ClampsSuffice(o, input, output);
    SameDepth(c, s, envs, events);
    ExitsOnceIff(c, s, envs, events);
  }

  /** A file of two units that is one hole, copied with two contexts as is the default. */
  const HOLES := Config(512, 0, 0, 1024, 1, 1, SparseFile, true, seq(1024, _ => 0), seq(1024, _ => false))

  /** The clamps do not help a sparse copy without data: the set-up leaves both contexts,
      and both call `dd_exit` although nothing fails. */
  lemma HoleFileExitsTwice()
    ensures Prepare(Options(512, 0, 0, 0, 2), FileTarget(1, 1024), FileTarget(1, 0)) == Ready(0, 0, 1024, 2, 1, 1)
    ensures ProgramRun(HOLES, Initial(HOLES, 2, []), Accepting(2), [])
    ensures var r := Outcome(HOLES, Initial(HOLES, 2, []), Accepting(2), []); r.outstanding == 0 && r.exits == [0, 0]
  {
    hide Launch, NextData;
    var s := Initial(HOLES, 2, []);
    assert NextData(HOLES.data, 0).None?;
    LaunchIdlesIff(HOLES, s, Accepting(2), 2);
    LaunchKeeps(HOLES, s, Accepting(2), 2);
    LaunchStaysHealthy(HOLES, s, 2);
    LaunchExitsWell(HOLES, s, 2);
  }

  /** As long as nothing fails, contexts exit with zero. */
  lemma {:induction false} LaunchExitsWell(c: Config, s: State, n: nat)
    requires c.outBs > 0 && Init(c, s) && !s.interrupt && n <= |s.ios|
    ensures var r := Launch(c, s, Accepting(|s.ios|), n);
      r.error == 0 && forall j :: 0 <= j < |r.exits| ==> r.exits[j] == 0
  {
    hide TargetSeek;
    if n > 0 {
      LaunchExitsWell(c, s, n - 1);
      LaunchStaysHealthy(c, s, n - 1);
      SeekExitsWell(c, Launch(c, s, Accepting(|s.ios|), n - 1), n - 1);
    }
  }

  lemma SeekExitsWell(c: Config, s: State, i: nat)
    requires i < |s.ios| && c.inStart <= s.pos && c.outBs > 0 && !Halted(s)
    requires forall j :: 0 <= j < |s.exits| ==> s.exits[j] == 0
    ensures var r := TargetSeek(c, s, i, ACCEPTED);
      r.error == 0 && forall j :: 0 <= j < |r.exits| ==> r.exits[j] == 0
  {
    hide Multiple, Sub64, NextData, NextHole;
  }

  lemma SameDepth(c: Config, s: State, envs: seq<Env>, events: seq<Event>)
    requires ProgramRun(c, s, envs, events)
    ensures |envs| == |s.ios|
  {
  }
}
