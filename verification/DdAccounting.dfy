/** In-flight accounting, termination and the calls of `dd_exit`: what every step
    keeps whatever the environment answers, including after errors and interrupts. */
module DdAccounting {
  import opened Arith
  import opened DdModel

  // ------------------------------------------------------ sums over contexts

  /** A quantity that is added up over the contexts. */
  datatype Weight =
    | Flying            // submitted and not completed
    | Chained           // in flight in the copy chain
    | Pending           // bytes claimed and not yet handed to a write
    | Rank(unit: nat)   // device and completion steps left until the next claim
    | Effort(unit: nat) // the same with seeks and the wait for them

  function Weigh(w: Weight, io: Io): int {
    match w
    case Flying => if InFlight(io) then 1 else 0
    case Chained => if InChain(io) then 1 else 0
    case Pending => if io.stage.Populating? || io.stage.Reading? then io.length else 0
    case Rank(unit) =>
      (match io.stage
       case Populating => 3 * (unit + 1) - |io.done|
       case Reading => 2 * (unit + 1) - |io.done|
       case Writing => unit + 1 - |io.done|
       case _ => 0)
    case Effort(unit) =>
      match io.stage
      case Populating => 3 * (unit + 1) + 3 - |io.done|
      case Reading => 2 * (unit + 1) + 3 - |io.done|
      case Writing => unit + 1 + 3 - |io.done|
      case Queued => 3
      case SeekingData => 2
      case SeekingHole => 1
      case Idle => 0
  }

  function Sum(w: Weight, ios: seq<Io>): int {
    if ios == [] then 0 else Weigh(w, ios[0]) + Sum(w, ios[1..])
  }

  lemma {:induction false} SumUpdate(w: Weight, ios: seq<Io>, i: nat, io: Io)
    requires i < |ios|
    ensures Sum(w, ios[i := io]) == Sum(w, ios) - Weigh(w, ios[i]) + Weigh(w, io)
  {
    if i == 0 {
      assert ios[i := io][1..] == ios[1..];
    } else {
      assert ios[i := io][1..] == ios[1..][i - 1 := io];
      SumUpdate(w, ios[1..], i - 1, io);
    }
  }

  /** The sum counts contexts: it lies between 0 and their number, is positive as
      soon as one is in flight, and 0 when none is. */
  lemma {:induction false} FlyingBounds(ios: seq<Io>)
    ensures 0 <= Sum(Flying, ios) <= |ios|
    ensures Sum(Flying, ios) == 0 <==> forall i :: 0 <= i < |ios| ==> !InFlight(ios[i])
  {
    if ios != [] {
      FlyingBounds(ios[1..]);
      assert forall i :: 0 < i < |ios| ==> ios[i] == ios[1..][i - 1];
    }
  }

  /** The transfers are part of what is in flight, all of it if nobody seeks. */
  lemma {:induction false} ChainedBounds(ios: seq<Io>, i: nat)
    ensures 0 <= Sum(Chained, ios) <= Sum(Flying, ios)
    ensures i < |ios| && Seeking(ios[i]) ==> Sum(Chained, ios) < Sum(Flying, ios)
  {
    if ios != [] {
      ChainedBounds(ios[1..], if i == 0 then 0 else i - 1);
    }
  }

  /** A weight that is nonnegative on every context has a nonnegative sum. */
  lemma {:induction false} SumNonnegative(w: Weight, ios: seq<Io>)
    requires forall i :: 0 <= i < |ios| ==> Weigh(w, ios[i]) >= 0
    ensures Sum(w, ios) >= 0
  {
    if ios != [] {
      assert forall i :: 0 < i < |ios| ==> ios[i] == ios[1..][i - 1];
      SumNonnegative(w, ios[1..]);
    }
  }

  lemma {:induction false} CardinalityBound(s: set<nat>, n: nat)
    requires forall k :: k in s ==> k < n
    ensures |s| <= n
  {
    if n == 0 {
      assert s == {};
    } else {
      var t := s - {n - 1};
      CardinalityBound(t, n - 1);
      if n - 1 in s { assert s == t + {n - 1}; } else { assert s == t; }
    }
  }

  // ---------------------------------------------------------- the invariant

  /** A context of the copy chain: its range is nonempty and not longer than the
      buffer, and only bytes of the transfer and the buffer are marked as moved. */
  ghost predicate GoodIo(c: Config, io: Io)
    requires ValidConfig(c)
  {
    && |io.buf| == c.unit && io.length <= c.unit
    && (Seeking(io) ==> c.mode.SparseBdev?)
    && (InChain(io) ==>
          && c.inStart <= io.offset && 0 < io.length
          && forall k :: k in io.done ==> Movable(c, io, k))
  }

  /** In a dense copy `length`, which is never reset, is still a whole unit as long
      as there is input left to take. */
  ghost predicate GoodIos(c: Config, s: State)
    requires ValidConfig(c)
  {
    && (forall i :: 0 <= i < |s.ios| ==> GoodIo(c, s.ios[i]))
    && (c.mode.Dense? && s.pos < End(c) && !Halted(s) ==>
          forall i :: 0 <= i < |s.ios| ==> s.ios[i].length == c.unit)
  }

  /** No context that asks for work will find any. */
  ghost predicate Over(c: Config, s: State)
    requires ValidConfig(c) && c.inStart <= s.pos
  {
    Halted(s) || Remaining(c, s) == 0 || (!c.mode.Dense? && NextData(c.data, s.pos).None?)
  }

  /** The cursor is inside the input and the contexts are good. */
  ghost predicate InBounds(c: Config, s: State) {
    && ValidConfig(c)
    && c.inStart <= s.pos <= |c.input|
    && (c.mode.Dense? ==> s.pos <= End(c))
    && GoodIos(c, s)
  }

  /** `outstanding` counts the operations in flight, and `dd_exit` has been called
      only if nothing is in flight and nothing will be. */
  ghost predicate Accounted(c: Config, s: State) {
    && InBounds(c, s)
    && (s.seekQueue != [] ==> c.mode.SparseBdev?)
    && s.outstanding == Sum(Flying, s.ios)
    && (s.exits != [] ==> s.outstanding == 0 && Over(c, s))
  }

  /** The state in which a callback of context `i` goes on. */
  ghost predicate Held(c: Config, s: State, i: nat) {
    i < |s.ios| && Accounted(c, s) && s.ios[i].stage.Idle? && s.ios[i].done == {}
  }

  /** A callback ends with something in flight, or with one more `dd_exit`. */
  ghost predicate Leaves(s: State, r: State) {
    if r.outstanding == 0 then |r.exits| == |s.exits| + 1 && s.exits == r.exits[..|s.exits|]
    else r.exits == s.exits
  }

  /** Device moves and completions left at most. */
  ghost function Measure(c: Config, s: State): int
    requires s.pos <= |c.input|
  {
    Times(|c.input| - s.pos, 3 * (c.unit + 1)) + Sum(Rank(c.unit), s.ios)
  }

  lemma {:induction false} TimesDrop(a: nat, b: nat, w: nat)
    requires b <= a
    ensures Times(b, w) <= Times(a, w)
    ensures b < a ==> Times(b, w) + w <= Times(a, w)
  {
    if b < a { TimesDrop(a - 1, b, w); }
  }

  lemma SumUpdates(ios: seq<Io>, i: nat, io: Io)
    requires i < |ios|
    ensures forall w :: Sum(w, ios[i := io]) == Sum(w, ios) - Weigh(w, ios[i]) + Weigh(w, io)
  {
    forall w ensures Sum(w, ios[i := io]) == Sum(w, ios) - Weigh(w, ios[i]) + Weigh(w, io) {
      SumUpdate(w, ios, i, io);
    }
  }

  // ------------------------------------------------------- callback by callback

  /** A submission leaves something in flight. */
  lemma SubmitKeeps(c: Config, s: State, i: nat, stage: Stage)
    requires Accounted(c, s) && i < |s.ios| && !InFlight(s.ios[i]) && s.exits == []
    requires !stage.Idle? && !stage.Queued?
    requires GoodIo(c, s.ios[i].(stage := stage, done := {}))
    ensures var r := Submit(s, i, stage);
      && Accounted(c, r) && Leaves(s, r)
      && Measure(c, r) == Measure(c, s) + Weigh(Rank(c.unit), s.ios[i].(stage := stage, done := {}))
  {
    hide RoundUp, Multiple, NextData, NextHole, Sub64;
    var io := s.ios[i].(stage := stage, done := {});
    SumUpdates(s.ios, i, io);
    FlyingBounds(s.ios);
  }

  /** A context that stops is the last one, and calls `dd_exit`, or is not. */
  lemma StopKeeps(c: Config, s: State, show: bool)
    requires Accounted(c, s) && Over(c, s)
    ensures var r := Stop(s, show);
      Accounted(c, r) && Leaves(s, r) && Measure(c, r) == Measure(c, s)
  {
    hide RoundUp, Multiple, NextData, NextHole, Sum, Times, Sub64;
  }

  lemma FailKeeps(c: Config, s: State, rc: int)
    requires Accounted(c, s) && rc != 0
    ensures var r := Fail(s, rc);
      Accounted(c, r) && Leaves(s, r) && Measure(c, r) == Measure(c, s)
  {
    hide RoundUp, Multiple, NextData, NextHole, Sum, Times, Sub64;
  }

  lemma SeekFailKeeps(c: Config, s: State, errno: int)
    requires Accounted(c, s) && errno != 0
    ensures var r := SeekFail(s, errno);
      Accounted(c, r) && Leaves(s, r) && Measure(c, r) == Measure(c, s)
  {
    hide RoundUp, Multiple, NextData, NextHole, Sum, Times, Sub64;
  }

  /** A context with a valid range. */
  ghost predicate Ranged(c: Config, io: Io) {
    |io.buf| == c.unit && c.inStart <= io.offset && 0 < io.length <= c.unit
  }

  /** When whole output blocks fill the buffer, every transfer for a valid range stays
      inside it. */
  lemma XferFits(c: Config, io: Io)
    requires ValidConfig(c) && Multiple(c.unit, c.outBs) && io.length <= c.unit
    ensures XferLen(c, io) <= c.unit
  {
    hide RoundUp, Multiple, Sub64, NextData, NextHole;
    RoundUpFits(io.length, c.outBs, c.unit);
  }

  /** Submitting a transfer for a valid range. */
  lemma LaunchTransfer(c: Config, s: State, i: nat, stage: Stage)
    requires Held(c, s, i) && s.exits == [] && Ranged(c, s.ios[i])
    requires stage.Populating? || stage.Reading? || stage.Writing?
    ensures var r := Submit(s, i, stage);
      && Accounted(c, r) && Leaves(s, r)
      && Measure(c, r) == Measure(c, s) + Weigh(Rank(c.unit), s.ios[i].(stage := stage))
  {
    hide RoundUp, Multiple, NextData, NextHole, Sum, Times, Sub64;
    SubmitKeeps(c, s, i, stage);
  }

  lemma ReadKeeps(c: Config, s: State, i: nat, rc: int)
    requires Held(c, s, i) && s.exits == [] && Ranged(c, s.ios[i])
    ensures var r := TargetRead(s, i, rc);
      Accounted(c, r) && Leaves(s, r) && Measure(c, r) <= Measure(c, s) + 2 * (c.unit + 1)
  {
    hide Accounted, Leaves, Measure, RoundUp, Multiple, Sub64, NextData, NextHole;
    if Halted(s) {
      StopKeeps(c, s, false);
    } else if rc != 0 {
      FailKeeps(c, s, rc);
    } else {
      LaunchTransfer(c, s, i, Reading);
    }
  }

  lemma WriteKeeps(c: Config, s: State, i: nat, rc: int)
    requires Held(c, s, i) && s.exits == [] && Ranged(c, s.ios[i])
    ensures var r := TargetWrite(s, i, rc);
      Accounted(c, r) && Leaves(s, r) && Measure(c, r) <= Measure(c, s) + c.unit + 1
  {
    hide RoundUp, Multiple, NextData, NextHole, Sum, Times, Sub64;
    var t := s.(incBytes := s.incBytes + s.ios[i].length);
    if Halted(s) {
      StopKeeps(c, s, true);
    } else if rc != 0 {
      FailKeeps(c, t, rc);
    } else {
      LaunchTransfer(c, t, i, Writing);
    }
  }

  /** Aiming an idle context changes neither the count nor the measure. */
  lemma AimKeeps(c: Config, s: State, i: nat)
    requires Held(c, s, i)
    ensures var t := Aim(c, s, i);
      && (forall w :: Sum(w, t.ios) == Sum(w, s.ios))
      && (Over(c, s) ==> Held(c, t, i) && Over(c, t))
  {
    hide RoundUp, Multiple, NextData, NextHole, Times, Sub64;
    SumUpdates(s.ios, i, Aim(c, s, i).ios[i]);
  }

  /** The range a context takes is nonempty and inside the input; in a dense copy it
      is a whole unit or everything that is left. */
  lemma TakeKeeps(c: Config, s: State, i: nat)
    requires Held(c, s, i) && !Halted(s) && s.exits == []
    requires c.mode.Dense? || s.pos + Aim(c, s, i).ios[i].length <= |c.input|
    requires Aim(c, s, i).ios[i].length > 0
    ensures var u := Take(Aim(c, s, i), i);
      && Held(c, u, i) && Ranged(c, u.ios[i]) && s.pos < u.pos
      && (c.mode.Dense? && u.pos < End(c) ==> u.ios[i].length == c.unit)
      && Measure(c, u) + 3 * (c.unit + 1) <= Measure(c, s)
  {
    hide RoundUp, Multiple, NextData, NextHole, Sum, Times, Sub64;
    AimKeeps(c, s, i);
    var u := Take(Aim(c, s, i), i);
    TimesDrop(|c.input| - s.pos, |c.input| - u.pos, 3 * (c.unit + 1));
  }

  /** A context has something to take, or the work is over. */
  lemma AimOver(c: Config, s: State, i: nat)
    requires Held(c, s, i) && (c.mode.Dense? || 0 < s.ios[i].length)
    ensures Aim(c, s, i).ios[i].length == 0 || Halted(s) ==> Over(c, s)
  {
    hide RoundUp, Multiple, NextData, NextHole, Sum, Sub64;
  }

  lemma PopulateKeeps(c: Config, s: State, i: nat, rc: int)
    requires Held(c, s, i)
    requires c.mode.Dense? || (0 < s.ios[i].length && s.pos + Aim(c, s, i).ios[i].length <= |c.input|)
    requires s.exits != [] ==> Halted(s) || Remaining(c, s) == 0
    ensures var r := PopulateBuffer(c, s, i, rc);
      Accounted(c, r) && Leaves(s, r) && Measure(c, r) <= Measure(c, s)
  {
    hide RoundUp, Multiple, Sub64, NextData, NextHole;
    var t := Aim(c, s, i);
    assert t.ios[i].length > 0 && !Halted(s) ==> s.exits == [];
    assert c.inStart <= s.pos <= |c.input| && c.outBs > 0 && i < |s.ios|;
    assert t.exits == s.exits && t.outstanding == s.outstanding;
    AimOver(c, s, i);
    AimKeeps(c, s, i);
    assert Measure(c, t) == Measure(c, s);
    hide Accounted, Measure, Over, Multiple, Sum;
    if t.ios[i].length == 0 || Halted(t) {
      StopKeeps(c, t, true);
    } else {
      TakeKeeps(c, s, i);
      var u := Take(t, i);
      assert u.exits == s.exits;
      if Multiple(u.ios[i].length, c.outBs) {
        ReadKeeps(c, u, i, rc);
      } else if rc != 0 {
        FailKeeps(c, u, rc);
      } else {
        LaunchTransfer(c, u, i, Populating);
      }
    }
  }

  /** Skipping a hole moves the cursor forward inside the input. */
  lemma SkipKeeps(c: Config, s: State, i: nat, pos: nat)
    requires Held(c, s, i) && !c.mode.Dense? && s.exits == [] && s.pos <= pos <= |c.input|
    ensures var t := s.(pos := pos);
      Held(c, t, i) && Measure(c, t) <= Measure(c, s)
  {
    hide RoundUp, Multiple, NextData, NextHole, Sub64;
    TimesDrop(|c.input| - s.pos, |c.input| - pos, 3 * (c.unit + 1));
  }

  lemma WithLengthKeeps(c: Config, s: State, i: nat, n: nat)
    requires Held(c, s, i) && !c.mode.Dense? && n <= c.unit
    ensures var t := WithLength(s, i, n);
      Held(c, t, i) && Measure(c, t) == Measure(c, s)
  {
    hide RoundUp, Multiple, NextData, NextHole, Sub64;
    SumUpdates(s.ios, i, s.ios[i].(length := n));
  }

  lemma FinalizeKeeps(c: Config, s: State, endErr: int)
    requires Accounted(c, s) && Over(c, s)
    ensures var r := FinalizeOutput(c, s, endErr);
      Accounted(c, r) && Leaves(s, r) && Measure(c, r) == Measure(c, s)
  {
    hide RoundUp, Multiple, NextData, NextHole, Sub64, Sum, Times, Extend, GoodIo;
    FlyingBounds(s.ios);
  }

  lemma SeekFileKeeps(c: Config, s: State, i: nat, env: Env)
    requires Held(c, s, i) && c.mode.SparseFile? && !Halted(s) && Remaining(c, s) != 0
    ensures var r := SeekFile(c, s, i, env);
      Accounted(c, r) && Leaves(s, r) && Measure(c, r) <= Measure(c, s)
  {
    hide RoundUp, Multiple, NextData, NextHole, Sub64, Sum, Times, GoodIos, PopulateBuffer, FinalizeOutput, Measure;
    var next := NextData(c.data, s.pos);
    if env.dataErr != 0 {
      SeekFailKeeps(c, s, env.dataErr);
    } else if next.None? {
      FinalizeKeeps(c, s, env.endErr);
    } else {
      SkipKeeps(c, s, i, Max(next.value, s.pos));
      var t := s.(pos := Max(next.value, s.pos));
      if env.holeErr != 0 {
        SeekFailKeeps(c, t, env.holeErr);
      } else {
        var hole := NextHole(c.data, t.pos);
        WithLengthKeeps(c, t, i, Min(c.unit, hole - t.pos));
        PopulateKeeps(c, WithLength(t, i, Min(c.unit, hole - t.pos)), i, env.rc);
      }
    }
  }

  /** A context that looks for work leaves an operation in flight or, as the last
      one, calls `dd_exit`. */
  lemma SeekKeeps(c: Config, s: State, i: nat, env: Env)
    requires Held(c, s, i) && !c.mode.SparseBdev?
    ensures var r := TargetSeek(c, s, i, env);
      Accounted(c, r) && Leaves(s, r) && Measure(c, r) <= Measure(c, s)
  {
    hide RoundUp, Multiple, NextData, NextHole, Sub64;
    if c.mode.Dense? {
      PopulateKeeps(c, s, i, env.rc);
    } else if Remaining(c, s) != 0 && !Halted(s) {
      SeekFileKeeps(c, s, i, env);
    }
  }

  // ------------------------------------------------------------ steps and runs

  /** The assertion `outstanding > 0` of the completion callbacks. */
  lemma OutstandingPositive(c: Config, s: State, i: nat)
    requires Accounted(c, s) && i < |s.ios| && InFlight(s.ios[i])
    ensures 0 < s.outstanding <= |s.ios| && s.exits == []
  {
    hide RoundUp, Multiple, Sub64, NextData, NextHole;
    FlyingBounds(s.ios);
  }

  lemma RankBounds(c: Config, io: Io)
    requires ValidConfig(c) && GoodIo(c, io) && InChain(io)
    ensures |io.done| <= c.unit
  {
    hide RoundUp, Multiple, NextData, NextHole, Sub64;
    CardinalityBound(io.done, c.unit);
  }

  /** A completed operation no longer counts. */
  lemma ParkKeeps(c: Config, s: State, i: nat, error: int)
    requires Accounted(c, s) && i < |s.ios| && InFlight(s.ios[i]) && (Halted(s) ==> error != 0 || s.interrupt)
    ensures var t := Park(s, i).(outstanding := s.outstanding - 1, error := error);
      && Held(c, t, i) && t.exits == []
      && Measure(c, t) == Measure(c, s) - Weigh(Rank(c.unit), s.ios[i])
  {
    hide RoundUp, Multiple, NextData, NextHole, Sub64;
    OutstandingPositive(c, s, i);
    SumUpdates(s.ios, i, Park(s, i).ios[i]);
  }

  lemma CompleteKeeps(c: Config, s: State, i: nat, flagged: bool, env: Env)
    requires Accounted(c, s) && !c.mode.SparseBdev? && i < |s.ios| && InChain(s.ios[i])
    ensures var r := Complete(c, s, i, flagged, env);
      Accounted(c, r) && Leaves(s, r) && Measure(c, r) < Measure(c, s)
  {
    hide RoundUp, Multiple, NextData, NextHole, Sub64, TargetRead, TargetWrite, TargetSeek, Sum, Times;
    RankBounds(c, s.ios[i]);
    var t := Park(s, i).(outstanding := s.outstanding - 1, error := if flagged then -ENOSPC else s.error);
    ParkKeeps(c, s, i, t.error);
    OutstandingPositive(c, s, i);
    match s.ios[i].stage
    case Populating => ReadKeeps(c, t, i, env.rc);
    case Reading => WriteKeeps(c, t, i, env.rc);
    case _ => SeekKeeps(c, t, i, env);
  }

  lemma MoveKeeps(c: Config, s: State, i: nat, k: nat)
    requires Accounted(c, s) && i < |s.ios| && InChain(s.ios[i])
    requires Movable(c, s.ios[i], k) && k !in s.ios[i].done
    ensures var r := Move(c, s, i, k);
      Accounted(c, r) && r.exits == s.exits && r.outstanding == s.outstanding && Measure(c, r) == Measure(c, s) - 1
  {
    hide RoundUp, Multiple, NextData, NextHole, Sub64;
    SumUpdates(s.ios, i, Move(c, s, i, k).ios[i]);
  }

  lemma AccountedShape(c: Config, s: State)
    requires Accounted(c, s) && !c.mode.SparseBdev?
    ensures Shape(c, s)
  {
    hide RoundUp, Multiple, Sub64, NextData, NextHole;
  }

  /** A device move or a completion, as opposed to a poller tick or a signal. */
  predicate Progresses(e: Event) {
    !e.Tick? && !e.Interrupt?
  }

  /** Every step keeps the accounting, moves and completions use up the measure,
      and `dd_exit` is called at most once, with nothing left in flight. */
  lemma StepKeeps(c: Config, s: State, e: Event)
    requires Accounted(c, s) && !c.mode.SparseBdev?
    requires Shape(c, s) && Enabled(c, s, e)
    ensures var r := Step(c, s, e);
      && Accounted(c, r) && |r.ios| == |s.ios|
      && (r.exits == s.exits || (s.exits == [] && |r.exits| == 1 && r.outstanding == 0))
      && (r.outstanding == 0 ==> s.outstanding == 0 || r.exits != [])
      && Measure(c, r) <= Measure(c, s) - (if Progresses(e) then 1 else 0)
  {
    hide RoundUp, Multiple, NextData, NextHole, Sub64;
    match e
    case Transfer(i, k) => MoveKeeps(c, s, i, k);
    case Completion(i, flagged, env) =>
      OutstandingPositive(c, s, i);
      CompleteKeeps(c, s, i, flagged, env);
    case SeekDone(i, env) => assert false;
    case Tick =>
    case Interrupt =>
  }

  lemma MeasureNonnegative(c: Config, s: State)
    requires Accounted(c, s)
    ensures Measure(c, s) >= 0
  {
    hide RoundUp, Multiple, NextData, NextHole, Sub64;
    forall i | 0 <= i < |s.ios| ensures Weigh(Rank(c.unit), s.ios[i]) >= 0 {
      if InChain(s.ios[i]) { RankBounds(c, s.ios[i]); }
    }
    SumNonnegative(Rank(c.unit), s.ios);
  }

  function CountProgress(events: seq<Event>): nat {
    if events == [] then 0 else (if Progresses(events[0]) then 1 else 0) + CountProgress(events[1..])
  }

  /** All runs: the accounting holds in the last state, the run has no more moves
      and completions than the measure allowed, and it has called `dd_exit` at most
      once unless the launch already had. */
  lemma {:induction false} RunKeeps(c: Config, s: State, events: seq<Event>)
    requires Accounted(c, s) && !c.mode.SparseBdev? && CanRun(c, s, events)
    ensures var r := Run(c, s, events);
      && Accounted(c, r) && |r.ios| == |s.ios| && Shape(c, r)
      && (r.exits == s.exits || (s.exits == [] && |r.exits| == 1))
      && (r.outstanding == 0 ==> s.outstanding == 0 || r.exits != [])
      && Measure(c, r) + CountProgress(events) <= Measure(c, s)
    decreases |events|
  {
    hide RoundUp, Multiple, Sub64, NextData, NextHole;
    AccountedShape(c, s);
    if events != [] {
      StepKeeps(c, s, events[0]);
      RunKeeps(c, Step(c, s, events[0]), events[1..]);
    }
  }

  /** The launch loop, context by context. Nothing is in flight after it only if
      every context called `dd_exit`. */
  lemma {:induction false} LaunchKeeps(c: Config, s: State, envs: seq<Env>, n: nat)
    requires ValidConfig(c) && !c.mode.SparseBdev? && Init(c, s)
    requires n <= |s.ios| == |envs|
    ensures var r := Launch(c, s, envs, n);
      && Accounted(c, r) && Measure(c, r) <= Measure(c, s)
      && (forall i :: n <= i < |s.ios| ==> r.ios[i] == s.ios[i])
      && (r.outstanding == 0 ==> |r.exits| == n)
      && (r.outstanding != 0 ==> r.exits == [])
  {
    hide RoundUp, Multiple, NextData, NextHole, Sub64, Sum, Times, TargetSeek;
    FlyingBounds(s.ios);
    if n > 0 {
      LaunchKeeps(c, s, envs, n - 1);
      var t := Launch(c, s, envs, n - 1);
      FlyingBounds(t.ios);
      assert t.ios[n - 1] == s.ios[n - 1];
      SeekKeeps(c, t, n - 1, envs[n - 1]);
      SeekOthers(c, t, n - 1, envs[n - 1]);
      hide Accounted, Measure;
      if t.outstanding == 0 && n > 1 {
        SeekOver(c, t, n - 1, envs[n - 1]);
      } else if t.outstanding != 0 {
        SeekOutstanding(c, t, n - 1, envs[n - 1]);
      }
    }
  }

  /** A context that looks for work does not touch the others. */
  lemma SeekOthers(c: Config, s: State, i: nat, env: Env)
    requires i < |s.ios| && c.inStart <= s.pos && c.outBs > 0
    ensures forall j :: 0 <= j < |s.ios| && j != i ==> TargetSeek(c, s, i, env).ios[j] == s.ios[j]
  {
    hide RoundUp, Multiple, Sub64, NextData, NextHole;
  }

  /** Once the work is over, looking for more submits nothing. */
  lemma SeekOver(c: Config, s: State, i: nat, env: Env)
    requires Held(c, s, i) && !c.mode.SparseBdev? && Over(c, s)
    ensures TargetSeek(c, s, i, env).outstanding == s.outstanding
  {
    hide RoundUp, Multiple, NextData, NextHole, Sub64;
  }

  lemma SeekOutstanding(c: Config, s: State, i: nat, env: Env)
    requires i < |s.ios| && c.inStart <= s.pos && c.outBs > 0
    ensures TargetSeek(c, s, i, env).outstanding >= s.outstanding
  {
    hide RoundUp, Multiple, Sub64, NextData, NextHole;
  }

  // ------------------------------------------------------------- main results

  /** A run of the program: the launch of all contexts, then `events`. */
  ghost predicate ProgramRun(c: Config, s: State, envs: seq<Env>, events: seq<Event>) {
    && ValidConfig(c) && !c.mode.SparseBdev? && Init(c, s) && |envs| == |s.ios|
    && CanRun(c, Launch(c, s, envs, |s.ios|), events)
  }

  ghost function Outcome(c: Config, s: State, envs: seq<Env>, events: seq<Event>): State
    requires ProgramRun(c, s, envs, events)
  {
    Run(c, Launch(c, s, envs, |s.ios|), events)
  }

  lemma {:induction false} IdleRank(unit: nat, ios: seq<Io>)
    requires forall i :: 0 <= i < |ios| ==> ios[i].stage.Idle?
    ensures Sum(Rank(unit), ios) == 0
  {
    if ios != [] {
      assert forall i :: 0 < i < |ios| ==> ios[i] == ios[1..][i - 1];
      IdleRank(unit, ios[1..]);
    }
  }

  /** In every reachable state, whatever failed and whenever the interrupt came:
      `outstanding` is the number of operations in flight and at most the queue
      depth, every transfer fits its buffer if whole output blocks fill it, and once
      `dd_exit` has been called nothing is in flight. */
  lemma InFlightAccounting(c: Config, s: State, envs: seq<Env>, events: seq<Event>)
    requires ProgramRun(c, s, envs, events)
    ensures var r := Outcome(c, s, envs, events);
      && r.outstanding == Sum(Flying, r.ios) && 0 <= r.outstanding <= |s.ios|
      && (r.exits != [] ==> forall i :: 0 <= i < |r.ios| ==> !InFlight(r.ios[i]))
      && (forall i :: 0 <= i < |r.ios| && InFlight(r.ios[i]) ==> 0 < r.outstanding)
      && (Multiple(c.unit, c.outBs) ==> TransfersFit(c, r))
  {
    hide RoundUp, Multiple, Sub64, NextData, NextHole, XferLen;
    LaunchKeeps(c, s, envs, |s.ios|);
    var t := Launch(c, s, envs, |s.ios|);
    RunKeeps(c, t, events);
    var r := Run(c, t, events);
    FlyingBounds(r.ios);
    if Multiple(c.unit, c.outBs) {
      forall i | 0 <= i < |r.ios| && InChain(r.ios[i]) ensures XferLen(c, r.ios[i]) <= |r.ios[i].buf| {
        assert GoodIo(c, r.ios[i]);
        XferFits(c, r.ios[i]);
      }
    }
  }

  /** No transfer in flight is longer than the buffer of its context. */
  ghost predicate TransfersFit(c: Config, s: State)
    requires c.outBs > 0
  {
    forall i :: 0 <= i < |s.ios| && InChain(s.ios[i]) ==> XferLen(c, s.ios[i]) <= |s.ios[i].buf|
  }

  lemma RunsAreBounded(c: Config, s: State, envs: seq<Env>, events: seq<Event>)
    requires ProgramRun(c, s, envs, events)
    ensures CountProgress(events) <= Times(|c.input| - c.inStart, 3 * (c.unit + 1))
  {
    hide Times, RoundUp, Multiple, NextData, NextHole, Launch, CanRun, Run, Sum, GoodIos, Sub64;
    LaunchKeeps(c, s, envs, |s.ios|);
    var t := Launch(c, s, envs, |s.ios|);
    RunKeeps(c, t, events);
    MeasureNonnegative(c, Run(c, t, events));
    IdleRank(c.unit, s.ios);
  }

  /** Every run is finite: it has at most three completions and three units of
      device moves for each byte of input left at the start. */
  lemma RunsAreFinite(c: Config, s: State, envs: seq<Env>, events: seq<Event>)
    requires ProgramRun(c, s, envs, events)
    ensures CountProgress(events) <= (|c.input| - c.inStart) * (3 * (c.unit + 1))
  {
    hide RoundUp, Multiple, Sub64, NextData, NextHole;
    RunsAreBounded(c, s, envs, events);
    assert c.inStart <= |c.input|;
    TimesIsProduct(|c.input| - c.inStart, 3 * (c.unit + 1));
    hide *;
  }

  /** No run gets stuck: when nothing is left in flight `dd_exit` has been called;
      once, unless the launch itself found nothing to do. */
  lemma QuiescentRunHasExited(c: Config, s: State, envs: seq<Env>, events: seq<Event>)
    requires ProgramRun(c, s, envs, events) && |s.ios| >= 1
    ensures var r := Outcome(c, s, envs, events);
      var launched := Launch(c, s, envs, |s.ios|);
      r.outstanding == 0 ==> |r.exits| == if launched.outstanding == 0 then |s.ios| else 1
  {
    hide RoundUp, Multiple, Sub64, NextData, NextHole;
    LaunchKeeps(c, s, envs, |s.ios|);
    RunKeeps(c, Launch(c, s, envs, |s.ios|), events);
  }

  lemma RemainingAtStart(c: Config, s: State)
    requires ValidConfig(c) && s.pos == c.inStart
    ensures Remaining(c, s) == c.copySize
  {
  }

  /** The first context submits nothing: the copy is interrupted or empty, its first
      submission is refused or, when holes are skipped, there is no data or only data
      that starts right behind the region, or one of its two seeks fails. */
  predicate FirstIdles(c: Config, s: State, env: Env) {
    || s.interrupt || c.copySize == 0 || env.rc != 0
    || (!c.mode.Dense? && (env.dataErr != 0 || env.holeErr != 0))
    || (!c.mode.Dense? && (NextData(c.data, c.inStart).None? || NextData(c.data, c.inStart).value == End(c)))
  }

  lemma FirstSeek(c: Config, s: State, env: Env)
    requires ValidConfig(c) && !c.mode.SparseBdev? && Init(c, s) && |s.ios| >= 1
    ensures TargetSeek(c, s, 0, env).outstanding == 0 <==> FirstIdles(c, s, env)
  {
    hide RoundUp, Multiple, NextData, NextHole;
    RemainingAtStart(c, s);
  }

  /** What the launch leaves in flight depends on its first context. */
  lemma {:induction false} LaunchIdlesIff(c: Config, s: State, envs: seq<Env>, n: nat)
    requires ValidConfig(c) && !c.mode.SparseBdev? && Init(c, s)
    requires 1 <= n <= |s.ios| == |envs|
    ensures Launch(c, s, envs, n).outstanding == 0 <==> FirstIdles(c, s, envs[0])
  {
    hide RoundUp, Multiple, NextData, NextHole, Sub64, Sum, Times, Measure, TargetSeek, FirstIdles;
    LaunchKeeps(c, s, envs, n - 1);
    var t := Launch(c, s, envs, n - 1);
    if n == 1 {
      assert t == s;
      FirstSeek(c, s, envs[0]);
    } else {
      LaunchIdlesIff(c, s, envs, n - 1);
      FlyingBounds(t.ios);
      assert t.ios[n - 1] == s.ios[n - 1];
      if t.outstanding == 0 {
        SeekOver(c, t, n - 1, envs[n - 1]);
      } else {
        SeekOutstanding(c, t, n - 1, envs[n - 1]);
      }
    }
  }

  /** A copy at rest has called `dd_exit` exactly once if and only if it has one context
      only or its first context submitted something; otherwise every context has. */
  lemma ExitsOnceIff(c: Config, s: State, envs: seq<Env>, events: seq<Event>)
    requires ProgramRun(c, s, envs, events) && |s.ios| >= 1
    requires Outcome(c, s, envs, events).outstanding == 0
    ensures var n := |Outcome(c, s, envs, events).exits|;
      && (n == 1 <==> |s.ios| == 1 || !FirstIdles(c, s, envs[0]))
      && (n == 1 || n == |s.ios|)
  {
    hide RoundUp, Multiple, Sub64, NextData, NextHole, FirstIdles;
    QuiescentRunHasExited(c, s, envs, events);
    LaunchIdlesIff(c, s, envs, |s.ios|);
  }
}
