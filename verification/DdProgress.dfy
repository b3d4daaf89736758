/** Runs that can always be continued: from every state without an error the device
    can finish what is in flight, and a run that ends well exists for every copy. */
module DdProgress {
  import opened Arith
  import opened ByteOrder
  import opened DdModel
  import opened DdAccounting
  import opened DdCopy

  /** Every submission and every seek succeeds. */
  const ACCEPTED := Env(0, 0, 0, 0, 0)

  /** The job before the launch of `n` contexts. */
  function Initial(c: Config, n: nat, output: seq<Byte>): (s: State)
    ensures Init(c, s) && |s.ios| == n && !s.interrupt && s.output == output
  {
    State(c.inStart, 0, 0, false, 0, 0, [], seq(n, _ => Io(0, c.unit, Idle, seq(c.unit, _ => 0), {})), [], output, [])
  }

  function Accepting(n: nat): seq<Env> {
    seq(n, _ => ACCEPTED)
  }

  /** `events` lead from `s` to `r`, and what they report as done has been done. */
  ghost predicate Reaches(c: Config, s: State, events: seq<Event>, r: State) {
    CanRun(c, s, events) && FaithfulRun(c, s, events) && Run(c, s, events) == r
  }

  lemma ReachesFirst(c: Config, s: State, e: Event, events: seq<Event>, r: State)
    requires Shape(c, s) && Enabled(c, s, e) && Faithful(c, s, e) && Reaches(c, Step(c, s, e), events, r)
    ensures Reaches(c, s, [e] + events, r)
  {
    hide Shape, Enabled, Faithful, Step;
    assert ([e] + events)[1..] == events;
  }

  lemma {:induction false} ReachesThen(c: Config, s: State, a: seq<Event>, t: State, b: seq<Event>, r: State)
    requires Reaches(c, s, a, t) && Reaches(c, t, b, r)
    ensures Reaches(c, s, a + b, r)
    decreases |a|
  {
    hide Shape, Enabled, Faithful, Step;
    if a == [] {
      assert a + b == b;
    } else {
      ReachesThen(c, Step(c, s, a[0]), a[1..], t, b, r);
      ReachesFirst(c, s, a[0], a[1..] + b, r);
      assert [a[0]] + (a[1..] + b) == a + b;
    }
  }

  /** The device moves one more byte for context `i`, or reports the transfer. */
  lemma NextEvent(c: Config, s: State, i: nat) returns (e: Event)
    requires Shape(c, s) && i < |s.ios| && InChain(s.ios[i])
    ensures Enabled(c, s, e) && Faithful(c, s, e)
    ensures (e.Transfer? && e.i == i) || e == Completion(i, false, ACCEPTED)
  {
    hide RoundUp;
    if k: nat :| Movable(c, s.ios[i], k) && k !in s.ios[i].done {
      e := Transfer(i, k);
    } else {
      e := Completion(i, false, ACCEPTED);
    }
  }

  lemma SeekStaysHealthy(c: Config, s: State, i: nat)
    requires i < |s.ios| && c.inStart <= s.pos && c.outBs > 0 && !Halted(s)
    ensures !Halted(TargetSeek(c, s, i, ACCEPTED))
  {
    hide RoundUp, Multiple, Sub64, NextData, NextHole;
  }

  lemma StepStaysHealthy(c: Config, s: State, e: Event)
    requires Shape(c, s) && Enabled(c, s, e) && !Halted(s)
    requires e.Transfer? || (e.Completion? && !e.flagged && e.env == ACCEPTED)
    ensures !Halted(Step(c, s, e))
  {
    hide RoundUp, Multiple, Sub64, NextData, NextHole, TargetSeek;
    if e.Completion? { SeekStaysHealthy(c, Park(s, e.i).(outstanding := s.outstanding - 1), e.i); }
  }

  /** A copy without an error can be brought to its end. */
  lemma {:induction false} Succeed(c: Config, s: State) returns (events: seq<Event>, r: State)
    requires Accounted(c, s) && !c.mode.SparseBdev? && !Halted(s) && (s.outstanding == 0 ==> s.exits != [])
    ensures Reaches(c, s, events, r) && r.exits != [] && !Halted(r) && r.outstanding == 0
    decreases Measure(c, s)
  {
    hide RoundUp, Multiple, Sub64, NextData, NextHole, Step, Enabled, Faithful, Shape, Measure, GoodIos, Sum;
    FlyingBounds(s.ios);
    MeasureNonnegative(c, s);
    if s.outstanding == 0 {
      events, r := [], s;
    } else {
      var i: nat :| i < |s.ios| && InFlight(s.ios[i]);
      AccountedShape(c, s);
      ChainOnly(c, s, i);
      var e := NextEvent(c, s, i);
      StepKeeps(c, s, e);
      StepStaysHealthy(c, s, e);
      var rest;
      rest, r := Succeed(c, Step(c, s, e));
      ReachesFirst(c, s, e, rest, r);
      events := [e] + rest;
    }
  }

  lemma ChainOnly(c: Config, s: State, i: nat)
    requires Accounted(c, s) && !c.mode.SparseBdev? && i < |s.ios| && InFlight(s.ios[i])
    ensures InChain(s.ios[i])
  {
    hide RoundUp, Multiple;
    assert GoodIo(c, s.ios[i]);
  }

  lemma {:induction false} LaunchStaysHealthy(c: Config, s: State, n: nat)
    requires c.outBs > 0 && Init(c, s) && !s.interrupt && n <= |s.ios|
    ensures !Halted(Launch(c, s, Accepting(|s.ios|), n))
  {
    hide TargetSeek;
    if n > 0 {
      LaunchStaysHealthy(c, s, n - 1);
      SeekStaysHealthy(c, Launch(c, s, Accepting(|s.ios|), n - 1), n - 1);
    }
  }

  /** Every copy that is not interrupted before its launch has a run that ends without
      an error and whose transfers really happen. */
  lemma SomeRunSucceeds(c: Config, s: State) returns (envs: seq<Env>, events: seq<Event>)
    requires ValidConfig(c) && !c.mode.SparseBdev? && Init(c, s) && |s.ios| >= 1 && !s.interrupt
    ensures ProgramRun(c, s, envs, events) && FaithfulRun(c, Launch(c, s, envs, |s.ios|), events)
    ensures var r := Outcome(c, s, envs, events); r.exits != [] && !Halted(r)
  {
    hide Launch, Accounted, Shape, Step;
    envs := Accepting(|s.ios|);
    LaunchKeeps(c, s, envs, |s.ios|);
    LaunchStaysHealthy(c, s, |s.ios|);
    var r;
    events, r := Succeed(c, Launch(c, s, envs, |s.ios|));
  }
}
