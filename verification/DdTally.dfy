/** The byte counters and the ranges taken from the cursor: the claims tile the
    bytes to copy, and a copy that ends without error reports exactly their number,
    however the ticks of the status poller fall. None of this depends on what the
    transfers do to the data. */
module DdTally {
  import opened Arith
  import opened ByteOrder
  import opened DdModel
  import opened DdAccounting
  import opened DdCopy

  /** The number of bytes to copy in [inStart, p). */
  function CountWanted(c: Config, p: nat): nat
    requires c.inStart <= p
    decreases p
  {
    if p == c.inStart then 0 else CountWanted(c, p - 1) + (if Wanted(c, p - 1) then 1 else 0)
  }

  lemma {:induction false} CountRange(c: Config, p: nat, n: nat, wanted: bool)
    requires c.inStart <= p && forall q: nat :: p <= q < p + n ==> Wanted(c, q) == wanted
    ensures CountWanted(c, p + n) == CountWanted(c, p) + if wanted then n else 0
  {
    hide RoundUp, Multiple, Sub64, NextData, NextHole;
    if n > 0 {
      CountRange(c, p, n - 1, wanted);
      assert Wanted(c, p + n - 1) == wanted;
    }
  }

  lemma {:induction false} CountDense(c: Config, p: nat)
    requires c.inStart <= p && c.mode.Dense?
    ensures CountWanted(c, p) == p - c.inStart
  {
    hide RoundUp, Multiple, Sub64, NextData, NextHole;
    CountRange(c, c.inStart, p - c.inStart, true);
  }

  function ClaimEnd(h: Claim): nat {
    h.offset + h.length
  }

  ghost predicate InClaims(claims: seq<Claim>, q: nat) {
    exists j :: 0 <= j < |claims| && Within(claims[j], q)
  }

  /** The claims are nonempty, in order and disjoint, and hold exactly the wanted
      bytes that the cursor has passed. In a dense copy each one is a whole unit
      unless it ends the region. */
  ghost predicate Tiled(c: Config, s: State)
    requires c.inStart <= s.pos
  {
    && (forall j :: 0 <= j < |s.claims| ==>
          0 < s.claims[j].length <= c.unit && c.inStart <= s.claims[j].offset && ClaimEnd(s.claims[j]) <= s.pos)
    && (forall j, k :: 0 <= j < k < |s.claims| ==> ClaimEnd(s.claims[j]) <= s.claims[k].offset)
    && (forall q: nat :: c.inStart <= q < s.pos ==> (Wanted(c, q) <==> InClaims(s.claims, q)))
    && (c.mode.Dense? ==> forall j :: 0 <= j < |s.claims| ==>
          s.claims[j].length == c.unit || ClaimEnd(s.claims[j]) == End(c))
  }

  /** Without an error the counters account for every claimed byte, `n` of them for
      a context in the middle of a callback. */
  ghost predicate Tallied(c: Config, s: State, n: nat)
    requires c.inStart <= s.pos
  {
    && (!Halted(s) ==> s.totalBytes + s.incBytes + Sum(Pending, s.ios) + n == CountWanted(c, s.pos))
    && (!Halted(s) && s.exits != [] ==> s.incBytes == 0)
  }

  /** The cursor does not leave a region that is contained. */
  ghost predicate Inside(c: Config, s: State) {
    ValidConfig(c) && (Contained(c) ==> s.pos <= End(c))
  }

  ghost predicate Ledger(c: Config, s: State, n: nat) {
    c.inStart <= s.pos && Inside(c, s) && Tiled(c, s) && Tallied(c, s, n)
  }

  /** A range that is about to be taken from the cursor holds wanted bytes only, and in
      a dense copy is a whole unit or everything that is left. */
  ghost predicate Claimable(c: Config, s: State, i: nat)
    requires i < |s.ios| && c.inStart <= s.pos
  {
    var n := Aim(c, s, i).ios[i].length;
    && n <= c.unit
    && (c.mode.Dense? ==> s.pos + n == End(c) || n == c.unit)
    && forall q: nat :: s.pos <= q < s.pos + n ==> Wanted(c, q)
  }

  // ------------------------------------------------------------ the callbacks

  lemma SubmitTallies(c: Config, s: State, i: nat, stage: Stage, n: nat)
    requires Ledger(c, s, n) && i < |s.ios| && s.ios[i].stage.Idle?
    requires n == Weigh(Pending, s.ios[i].(stage := stage))
    ensures Ledger(c, Submit(s, i, stage), 0)
  {
    hide Tiled, RoundUp, Multiple, Sub64, NextData, NextHole;
    SumUpdates(s.ios, i, s.ios[i].(stage := stage, done := {}));
    assert Tiled(c, Submit(s, i, stage)) by { SameTiles(c, s, Submit(s, i, stage)); }
  }

  lemma SameTiles(c: Config, s: State, r: State)
    requires c.inStart <= s.pos && Tiled(c, s) && r.pos == s.pos && r.claims == s.claims
    ensures Tiled(c, r)
  {
    hide RoundUp, Multiple, Sub64, NextData, NextHole;
  }

  lemma ReadTallies(c: Config, s: State, i: nat, rc: int)
    requires i < |s.ios| && s.ios[i].stage.Idle? && Ledger(c, s, s.ios[i].length)
    ensures Ledger(c, TargetRead(s, i, rc), 0)
  {
    hide RoundUp, Multiple, Sub64, NextData, NextHole;
    if !Halted(s) && rc == 0 {
      SubmitTallies(c, s, i, Reading, s.ios[i].length);
    } else {
      hide Tiled;
      SameTiles(c, s, TargetRead(s, i, rc));
    }
  }

  lemma WriteTallies(c: Config, s: State, i: nat, rc: int)
    requires i < |s.ios| && s.ios[i].stage.Idle? && (s.exits == [] || Halted(s)) && Ledger(c, s, s.ios[i].length)
    ensures Ledger(c, TargetWrite(s, i, rc), 0)
  {
    hide Tiled, RoundUp, Multiple, Sub64, NextData, NextHole;
    var t := s.(incBytes := s.incBytes + s.ios[i].length);
    SameTiles(c, s, t);
    if !Halted(s) && rc == 0 {
      SubmitTallies(c, t, i, Writing, 0);
    } else {
      SameTiles(c, s, TargetWrite(s, i, rc));
    }
  }

  /** A new claim goes to the end of the list. */
  lemma TakeTiles(c: Config, s: State, i: nat)
    requires c.inStart <= s.pos && Tiled(c, s) && i < |s.ios|
    requires Claimable(c, s, i) && Aim(c, s, i).ios[i].length > 0
    ensures Tiled(c, Take(Aim(c, s, i), i))
  {
    hide RoundUp, Multiple, Sub64, NextData, NextHole;
    var u := Take(Aim(c, s, i), i);
    var h := Claim(s.pos, u.ios[i].length);
    assert u.claims == s.claims + [h];
    forall q: nat | c.inStart <= q < u.pos ensures Wanted(c, q) <==> InClaims(u.claims, q) {
      if q >= s.pos {
        assert Within(u.claims[|s.claims|], q);
      } else {
        if InClaims(s.claims, q) {
          var j :| 0 <= j < |s.claims| && Within(s.claims[j], q);
          assert Within(u.claims[j], q);
        }
        if InClaims(u.claims, q) {
          var j :| 0 <= j < |u.claims| && Within(u.claims[j], q);
          assert Within(s.claims[j], q);
        }
      }
    }
  }

  lemma TakeInside(c: Config, s: State, i: nat)
    requires Inside(c, s) && c.inStart <= s.pos && i < |s.ios|
    ensures Inside(c, Take(Aim(c, s, i), i))
  {
    hide Sub64, Contained;
  }

  lemma TakeTallies(c: Config, s: State, i: nat)
    requires Ledger(c, s, 0) && i < |s.ios| && s.ios[i].stage.Idle? && s.exits == []
    requires Claimable(c, s, i) && Aim(c, s, i).ios[i].length > 0
    ensures var u := Take(Aim(c, s, i), i); Ledger(c, u, u.ios[i].length)
  {
    hide RoundUp, Multiple, Sub64, NextData, NextHole, Tiled, Inside, Remaining;
    TakeTiles(c, s, i);
    TakeInside(c, s, i);
    var n := Aim(c, s, i).ios[i].length;
    SumUpdates(s.ios, i, Aim(c, s, i).ios[i]);
    CountRange(c, s.pos, n, true);
  }

  lemma PopulateTallies(c: Config, s: State, i: nat, rc: int)
    requires Ledger(c, s, 0) && i < |s.ios| && s.ios[i].stage.Idle?
    requires !Halted(s) ==> Claimable(c, s, i)
    requires !Halted(s) && Aim(c, s, i).ios[i].length > 0 ==> s.exits == []
    ensures Ledger(c, PopulateBuffer(c, s, i, rc), 0)
  {
    hide RoundUp, Multiple, Sub64, NextData, NextHole;
    var t := Aim(c, s, i);
    SumUpdates(s.ios, i, t.ios[i]);
    if t.ios[i].length == 0 || Halted(s) {
      hide Tiled;
      SameTiles(c, s, PopulateBuffer(c, s, i, rc));
    } else {
      TakeTallies(c, s, i);
      var u := Take(t, i);
      assert u.ios[i].stage.Idle? && !Halted(u);
      if Multiple(u.ios[i].length, c.outBs) {
        ReadTallies(c, u, i, rc);
      } else if rc != 0 {
        hide Tiled, Claimable;
        SameTiles(c, u, PopulateBuffer(c, s, i, rc));
      } else {
        hide Claimable;
        SubmitTallies(c, u, i, Populating, u.ios[i].length);
      }
    }
  }

  /** A skipped hole adds nothing. */
  lemma SkipTallies(c: Config, s: State, pos: nat)
    requires Ledger(c, s, 0) && s.pos <= pos && forall q: nat :: s.pos <= q < pos ==> !Wanted(c, q)
    requires s.exits == [] && !c.mode.Dense? && Inside(c, s.(pos := pos))
    ensures Ledger(c, s.(pos := pos), 0)
  {
    hide RoundUp, Multiple, Sub64, NextData, NextHole, Contained, Sum;
    CountRange(c, s.pos, pos - s.pos, false);
    forall q: nat | s.pos <= q < pos ensures !InClaims(s.claims, q) {
    }
  }

  /** In a dense copy a context with work left takes a whole unit or the rest. */
  lemma DenseClaimable(c: Config, s: State, i: nat)
    requires InBounds(c, s) && c.mode.Dense? && i < |s.ios| && !Halted(s)
    ensures Claimable(c, s, i)
  {
    hide RoundUp, Multiple, GoodIo, Sub64, NextData, NextHole;
  }

  /** The chunk from a data byte to the next hole holds data only. */
  lemma ChunkClaimable(c: Config, s: State, i: nat)
    requires ValidConfig(c) && !c.mode.Dense? && i < |s.ios| && c.inStart <= s.pos && DataAt(c, s.pos)
    requires ChunkLength(c, s.pos, s.ios[i].length)
    ensures Claimable(c, s, i)
  {
    hide RoundUp, Multiple, Sub64, NextData, NextHole;
  }

  /** The chunk that starts at a data byte. */
  lemma ChunkTallies(c: Config, s: State, i: nat, n: nat, rc: int)
    requires Ledger(c, s, 0) && i < |s.ios| && s.ios[i].stage.Idle?
    requires !c.mode.Dense? && DataAt(c, s.pos) && s.exits == [] && !Halted(s) && ChunkLength(c, s.pos, n)
    ensures Ledger(c, PopulateBuffer(c, WithLength(s, i, n), i, rc), 0)
  {
    hide Tiled, Claimable, Multiple, RoundUp, Sub64, CountWanted, NextHole;
    var u := WithLength(s, i, n);
    ChunkClaimable(c, u, i);
    SumUpdates(s.ios, i, u.ios[i]);
    SameTiles(c, s, u);
    PopulateTallies(c, u, i, rc);
  }

  lemma FinalizeTallies(c: Config, s: State, endErr: int)
    requires Ledger(c, s, 0) && s.outstanding >= 0
    ensures Ledger(c, FinalizeOutput(c, s, endErr), 0)
  {
    hide Tiled, CountWanted, Sum, Extend, RoundUp, Multiple, Sub64, NextData, NextHole;
    SameTiles(c, s, FinalizeOutput(c, s, endErr));
  }

  lemma SeekFailTallies(c: Config, s: State, errno: int)
    requires Ledger(c, s, 0) && errno != 0
    ensures Ledger(c, SeekFail(s, errno), 0)
  {
    hide Tiled, CountWanted, Sum, RoundUp, Multiple, Sub64, NextData, NextHole;
    SameTiles(c, s, SeekFail(s, errno));
  }

  /** Data that a seek finds from inside a contained region is inside it, or directly
      behind it. */
  lemma DataInside(c: Config, s: State)
    requires Inside(c, s) && !c.mode.Dense? && NextData(c.data, s.pos).Some?
    requires c.inStart <= s.pos && (Contained(c) ==> s.pos < End(c))
    ensures Inside(c, s.(pos := NextData(c.data, s.pos).value))
  {
    hide NextData;
    var d := NextData(c.data, s.pos).value;
    assert d > End(c) ==> NextData(c.data, End(c)).Some?;
  }

  /** A context that has found data at `d`. */
  lemma DataTallies(c: Config, s: State, i: nat, env: Env, d: nat)
    requires Ledger(c, s, 0) && i < |s.ios| && s.ios[i].stage.Idle?
    requires !c.mode.Dense? && s.exits == [] && !Halted(s) && env.dataErr == 0
    requires NextData(c.data, s.pos) == Some(d) && Inside(c, s.(pos := d))
    ensures Ledger(c, SeekFile(c, s, i, env), 0)
  {
    hide Multiple, RoundUp, Sub64, NextData, NextHole, PopulateBuffer, Tiled, Tallied, Contained;
    var t := s.(pos := d);
    SkipTallies(c, s, d);
    if env.holeErr != 0 {
      SeekFailTallies(c, t, env.holeErr);
    } else {
      ChunkTallies(c, t, i, Min(c.unit, NextHole(c.data, d) - d), env.rc);
    }
  }

  lemma SeekFileTallies(c: Config, s: State, i: nat, env: Env)
    requires Held(c, s, i) && Ledger(c, s, 0)
    requires c.mode.SparseFile? && !Halted(s) && Remaining(c, s) != 0
    ensures Ledger(c, SeekFile(c, s, i, env), 0)
  {
    hide RoundUp, Multiple, Tiled, Tallied, PopulateBuffer, Contained, NextData, NextHole, GoodIos, Sum;
    FlyingBounds(s.ios);
    var next := NextData(c.data, s.pos);
    if env.dataErr != 0 {
      SeekFailTallies(c, s, env.dataErr);
    } else if next.None? {
      FinalizeTallies(c, s, env.endErr);
    } else {
      DataInside(c, s);
      DataTallies(c, s, i, env, next.value);
    }
  }

  /** A context that only changes its place in the seek queue adds nothing. */
  lemma ReplaceTallies(c: Config, s: State, r: State, i: nat)
    requires Ledger(c, s, 0) && i < |s.ios| == |r.ios| && r.ios == s.ios[i := r.ios[i]]
    requires !InChain(s.ios[i]) && !InChain(r.ios[i])
    requires r.pos == s.pos && r.claims == s.claims && (Halted(s) ==> Halted(r))
    requires Halted(r) || (r.exits == s.exits && r.incBytes == s.incBytes && r.totalBytes == s.totalBytes)
    ensures Ledger(c, r, 0)
  {
    hide Tiled, CountWanted;
    SumUpdates(s.ios, i, r.ios[i]);
    SameTiles(c, s, r);
  }

  lemma SeekTallies(c: Config, s: State, i: nat, env: Env)
    requires InBounds(c, s) && Ledger(c, s, 0)
    requires i < |s.ios| && s.ios[i].stage.Idle? && s.ios[i].done == {} && (Halted(s) || Accounted(c, s))
    ensures Ledger(c, TargetSeek(c, s, i, env), 0)
  {
    hide RoundUp, Multiple, Sub64, NextData, NextHole, Tiled, GoodIos, SeekFile, Claimable, CountWanted, Sum, Contained;
    if c.mode.Dense? {
      if !Halted(s) { DenseClaimable(c, s, i); }
      hide PopulateBuffer;
      PopulateTallies(c, s, i, env.rc);
    } else if Remaining(c, s) == 0 || Halted(s) {
      SameTiles(c, s, TargetSeek(c, s, i, env));
    } else if c.mode.SparseBdev? {
      ReplaceTallies(c, s, TargetSeek(c, s, i, env), i);
    } else {
      SeekFileTallies(c, s, i, env);
    }
  }

  /** Completing an operation keeps the bounds. */
  lemma ParkBounds(c: Config, s: State, t: State, i: nat)
    requires InBounds(c, s) && i < |s.ios| && t.ios == Park(s, i).ios && t.pos == s.pos && (Halted(s) ==> Halted(t))
    ensures InBounds(c, t)
  {
    hide RoundUp, Multiple, Sub64, NextData, NextHole;
  }

  lemma CompleteTallies(c: Config, s: State, i: nat, flagged: bool, env: Env)
    requires InBounds(c, s) && Ledger(c, s, 0) && (Halted(s) || Accounted(c, s))
    requires i < |s.ios| && InChain(s.ios[i])
    ensures Ledger(c, DdModel.Complete(c, s, i, flagged, env), 0)
  {
    hide RoundUp, Multiple, Sub64, NextData, NextHole, Tiled, TargetSeek, TargetRead, TargetWrite, CountWanted,
      Sum, GoodIos, Contained;
    SumUpdates(s.ios, i, Park(s, i).ios[i]);
    var t := Park(s, i).(outstanding := s.outstanding - 1, error := if flagged then -ENOSPC else s.error);
    SameTiles(c, s, t);
    if s.ios[i].stage.Writing? {
      ParkBounds(c, s, t, i);
      if !Halted(t) { ParkKeeps(c, s, i, t.error); }
      SeekTallies(c, t, i, env);
    } else {
      if !Halted(s) { OutstandingPositive(c, s, i); }
      if s.ios[i].stage.Populating? { ReadTallies(c, t, i, env.rc); } else { WriteTallies(c, t, i, env.rc); }
    }
  }

  lemma StepTallies(c: Config, s: State, e: Event)
    requires !c.mode.SparseBdev? && Accounted(c, s) && Ledger(c, s, 0)
    requires Shape(c, s) && Enabled(c, s, e)
    ensures Ledger(c, Step(c, s, e), 0)
  {
    hide DdModel.Complete, Tiled, CountWanted, RoundUp, Multiple, Sub64, NextData, NextHole, Contained;
    match e
    case Transfer(i, k) =>
      SumUpdates(s.ios, i, Move(c, s, i, k).ios[i]);
      SameTiles(c, s, Step(c, s, e));
    case Completion(i, flagged, env) => CompleteTallies(c, s, i, flagged, env);
    case SeekDone(_, _) => assert false;
    case Tick => SameTiles(c, s, Step(c, s, e));
    case Interrupt => SameTiles(c, s, Step(c, s, e));
  }

  lemma {:induction false} RunTallies(c: Config, s: State, events: seq<Event>)
    requires !c.mode.SparseBdev? && Accounted(c, s) && Ledger(c, s, 0) && CanRun(c, s, events)
    ensures Ledger(c, Run(c, s, events), 0)
    decreases |events|
  {
    hide Accounted, Step, Ledger, Shape, Enabled;
    if events != [] {
      StepKeeps(c, s, events[0]);
      StepTallies(c, s, events[0]);
      RunTallies(c, Step(c, s, events[0]), events[1..]);
    }
  }

  lemma {:induction false} IdlePending(ios: seq<Io>)
    requires forall i :: 0 <= i < |ios| ==> !InChain(ios[i])
    ensures Sum(Pending, ios) == 0
  {
    if ios != [] {
      assert forall i :: 0 < i < |ios| ==> ios[i] == ios[1..][i - 1];
      IdlePending(ios[1..]);
    }
  }

  lemma {:induction false} LaunchTallies(c: Config, s: State, envs: seq<Env>, n: nat)
    requires ValidConfig(c) && !c.mode.SparseBdev? && Init(c, s) && n <= |s.ios| == |envs|
    ensures Ledger(c, Launch(c, s, envs, n), 0)
  {
    hide RoundUp, Multiple, Sub64, NextData, NextHole, Contained, TargetSeek, Measure, Ledger;
    if n == 0 {
      InitLedger(c, s);
    } else {
      LaunchTallies(c, s, envs, n - 1);
      LaunchKeeps(c, s, envs, n - 1);
      var t := Launch(c, s, envs, n - 1);
      assert t.ios[n - 1] == s.ios[n - 1];
      SeekTallies(c, t, n - 1, envs[n - 1]);
    }
  }

  lemma InitLedger(c: Config, s: State)
    requires ValidConfig(c) && Init(c, s)
    ensures Ledger(c, s, 0)
  {
    IdlePending(s.ios);
  }

  /** In every reachable state, whatever failed and whatever the transfers did: the
      claims are disjoint, in order and hold exactly the wanted bytes that the cursor
      has passed, a dense copy claims whole units except at the end of the region, and
      the counters account for every claimed byte. */
  lemma ClaimsTile(c: Config, s: State, envs: seq<Env>, events: seq<Event>)
    requires ProgramRun(c, s, envs, events)
    ensures Ledger(c, Outcome(c, s, envs, events), 0)
  {
    hide RoundUp, Multiple, Sub64, NextData, NextHole, Ledger;
    LaunchTallies(c, s, envs, |s.ios|);
    LaunchKeeps(c, s, envs, |s.ios|);
    hide Accounted, Launch, CanRun;
    RunTallies(c, Launch(c, s, envs, |s.ios|), events);
  }

  /** When the work is over without an error, the total is complete. */
  lemma ExitTotal(c: Config, s: State)
    requires Accounted(c, s) && Ledger(c, s, 0) && s.exits != [] && !Halted(s)
    ensures s.totalBytes == CountWanted(c, Max(s.pos, End(c))) && s.incBytes == 0
  {
    hide RoundUp, Multiple, Sub64, NextData, NextHole;
    FlyingBounds(s.ios);
    IdlePending(s.ios);
    hide Tiled, GoodIos, Sum, CountWanted, Contained;
    if s.pos < End(c) {
      RemainingZero(c, s);
      CountRange(c, s.pos, End(c) - s.pos, false);
    }
  }

  /** The reported total of a copy that ended without error is the number of wanted
      bytes up to the end of the region, or up to the cursor if a sparse copy has run
      over it; in a dense copy that is the whole region. */
  lemma TotalIsExact(c: Config, s: State, envs: seq<Env>, events: seq<Event>)
    requires ProgramRun(c, s, envs, events)
    requires var r := Outcome(c, s, envs, events); r.exits != [] && !Halted(r)
    ensures var r := Outcome(c, s, envs, events);
      && r.totalBytes == CountWanted(c, Max(r.pos, End(c))) && r.incBytes == 0
      && (Contained(c) ==> r.totalBytes == CountWanted(c, End(c)))
      && (c.mode.Dense? ==> r.totalBytes == c.copySize)
  {
    hide RoundUp, Multiple, Sub64, NextData, NextHole;
    ClaimsTile(c, s, envs, events);
    LaunchKeeps(c, s, envs, |s.ios|);
    RunKeeps(c, Launch(c, s, envs, |s.ios|), events);
    var r := Outcome(c, s, envs, events);
    hide Accounted, Tiled, Tallied, Outcome, CountWanted;
    ExitTotal(c, r);
    if c.mode.Dense? { CountDense(c, End(c)); }
  }
}
