/** The chunks of a sparse copy are the same in every run: they follow from the cursor
    alone, whichever context takes them. So it is known exactly when the transfers of a
    sparse copy stay inside their buffers. */
module DdChunks {
  import opened Arith
  import opened ByteOrder
  import opened DdModel
  import opened DdAccounting
  import opened DdCopy
  import opened DdTally
  import opened DdBuffers
  import opened DdSeekQueue
  import opened DdProgress
  import opened DdSeekHang
  import opened DdSeekRuns

  // ---------------------------------------------------------- the chunks ahead

  /** The chunk that the next context takes from a cursor at `pos`, empty if none. */
  function Chunk(c: Config, pos: nat): (h: Claim)
    requires c.inStart <= pos
    ensures h.length > 0 ==> pos <= h.offset && h.offset + h.length <= |c.data|
  {
    var next := NextData(c.data, pos);
    if Sub64(c.copySize, pos - c.inStart) == 0 || next.None? then Claim(pos, 0)
    else
      var d := next.value;
      Claim(d, Min(Min(c.unit, NextHole(c.data, d) - d), Sub64(c.copySize, d - c.inStart)))
  }

  /** Every chunk from `pos` on fits a buffer when it is rounded up to output blocks. */
  predicate ChunksFit(c: Config, pos: nat)
    requires c.inStart <= pos && c.outBs > 0
    decreases |c.data| - pos
  {
    var h := Chunk(c, pos);
    h.length == 0 || (RoundUp(h.length, c.outBs) <= c.unit && ChunksFit(c, h.offset + h.length))
  }

  /** Data is found where it is. */
  lemma FoundAt(data: seq<bool>, p: nat)
    requires p < |data| && data[p]
    ensures NextData(data, p) == Some(p)
  {
  }

  /** A hole in front of the next chunk does not matter. */
  lemma SkipChunks(c: Config, pos: nat, d: nat)
    requires c.inStart <= pos && c.outBs > 0 && NextData(c.data, pos) == Some(d)
    requires Sub64(c.copySize, pos - c.inStart) != 0
    ensures ChunksFit(c, pos) <==> ChunksFit(c, d)
  {
    hide NextData, NextHole, RoundUp, Sub64, Chunk;
    SameChunk(c, pos, d);
  }

  lemma SameChunk(c: Config, pos: nat, d: nat)
    requires c.inStart <= pos && NextData(c.data, pos) == Some(d) && Sub64(c.copySize, pos - c.inStart) != 0
    ensures Chunk(c, pos).length == Chunk(c, d).length && (Chunk(c, d).length > 0 ==> Chunk(c, pos) == Chunk(c, d))
  {
    hide NextData, NextHole, Sub64;
    FoundAt(c.data, d);
  }

  /** Every claim in the copy chain fits a buffer, also as a write. */
  ghost predicate Roomy(c: Config, s: State)
    requires c.outBs > 0
  {
    forall i :: 0 <= i < |s.ios| && InChain(s.ios[i]) ==> RoundUp(s.ios[i].length, c.outBs) <= c.unit
  }

  /** Everything that is copied fits, now and from the cursor on. */
  ghost predicate Ahead(c: Config, s: State) {
    c.outBs > 0 && c.inStart <= s.pos && Roomy(c, s) && ChunksFit(c, s.pos)
  }

  /** Something is too long, now or from the cursor on. */
  ghost predicate Doomed(c: Config, s: State) {
    c.outBs > 0 && c.inStart <= s.pos && (!TransfersFit(c, s) || !ChunksFit(c, s.pos))
  }

  lemma RoomyFits(c: Config, s: State)
    requires InBounds(c, s) && Roomy(c, s)
    ensures TransfersFit(c, s)
  {
    hide RoundUp, Multiple;
    forall i | 0 <= i < |s.ios| && InChain(s.ios[i]) ensures XferLen(c, s.ios[i]) <= |s.ios[i].buf| {
      assert GoodIo(c, s.ios[i]);
    }
  }

  /** What a context at a data byte takes is the next chunk. */
  lemma AimIsChunk(c: Config, s: State, i: nat)
    requires ValidConfig(c) && c.inStart <= s.pos && i < |s.ios| && DataAt(c, s.pos) && ChunkLength(c, s.pos, s.ios[i].length)
    ensures var h := Chunk(c, s.pos);
      Aim(c, s, i).ios[i].length == h.length && (h.length > 0 ==> h.offset == s.pos)
  {
    hide NextData, NextHole, RoundUp, Multiple;
    FoundAt(c.data, s.pos);
  }

  /** Taking a chunk keeps the chunks ahead. */
  lemma PopulateAhead(c: Config, s: State, i: nat, rc: int)
    requires ValidConfig(c) && c.inStart <= s.pos && i < |s.ios| && s.ios[i].stage.Idle? && DataAt(c, s.pos)
    requires ChunkLength(c, s.pos, s.ios[i].length) && Ahead(c, s)
    ensures Ahead(c, PopulateBuffer(c, s, i, rc))
  {
    hide RoundUp, Multiple, Sub64, Remaining, ChunkLength, Chunk;
    AimIsChunk(c, s, i);
  }

  /** Taking a chunk that is too long submits it; taking another one leaves it ahead. */
  lemma PopulateDoomed(c: Config, s: State, i: nat)
    requires ValidConfig(c) && c.inStart <= s.pos && i < |s.ios| && s.ios[i].stage.Idle? && DataAt(c, s.pos)
    requires ChunkLength(c, s.pos, s.ios[i].length) && s.ios[i].length <= c.unit == |s.ios[i].buf|
    requires !Halted(s) && !ChunksFit(c, s.pos)
    ensures Doomed(c, PopulateBuffer(c, s, i, 0))
  {
    hide RoundUp, Multiple, Sub64, Remaining, ChunkLength, Chunk;
    AimIsChunk(c, s, i);
    var n := Aim(c, s, i).ios[i].length;
    RoundUpBounds(n, c.outBs);
    var r := PopulateBuffer(c, s, i, 0);
    if RoundUp(n, c.outBs) > c.unit { assert XferLen(c, r.ios[i]) > |r.ios[i].buf|; }
  }

  // ------------------------------------------------------- sparse copies of files

  lemma FileChunk(c: Config, d: nat)
    requires d < |c.data| && c.data[d]
    ensures var hole := NextHole(c.data, d);
      hole > d && ChunkLength(c, d, if hole > d then Min(c.unit, hole - d) else c.unit)
  {
  }

  lemma SeekAhead(c: Config, s: State, i: nat, env: Env)
    requires ValidConfig(c) && c.mode.SparseFile? && i < |s.ios| && s.ios[i].stage.Idle? && Ahead(c, s)
    ensures Ahead(c, TargetSeek(c, s, i, env))
  {
    hide RoundUp, Multiple, Sub64, NextData, NextHole, PopulateBuffer, ChunkLength, ChunksFit, Extend;
    var next := NextData(c.data, s.pos);
    if Remaining(c, s) != 0 && !Halted(s) && next.Some? {
      var t := s.(pos := next.value);
      SkipChunks(c, s.pos, t.pos);
      FileChunk(c, t.pos);
      PopulateAhead(c, WithLength(t, i, Min(c.unit, NextHole(c.data, t.pos) - t.pos)), i, env.rc);
    }
  }

  lemma StepAhead(c: Config, s: State, e: Event)
    requires Accounted(c, s) && c.mode.SparseFile? && Ahead(c, s) && Shape(c, s) && Enabled(c, s, e)
    ensures Ahead(c, Step(c, s, e))
  {
    hide RoundUp, Multiple, Sub64, TargetSeek, ChunksFit, Sum, GoodIos, Over, NextData, XferLen, Put;
    if e.Completion? && s.ios[e.i].stage.Writing? {
      SeekAhead(c, Park(s, e.i).(outstanding := s.outstanding - 1, error := if e.flagged then -ENOSPC else s.error), e.i, e.env);
    } else if e.SeekDone? {
      NobodySeeksFiles(c, s, e.i);
      assert false;
    }
  }

  lemma NobodySeeksFiles(c: Config, s: State, i: nat)
    requires Accounted(c, s) && c.mode.SparseFile? && i < |s.ios|
    ensures GoodIo(c, s.ios[i]) && !Seeking(s.ios[i])
  {
    hide RoundUp, Multiple, Sum;
  }

  lemma {:induction false} RunAhead(c: Config, s: State, events: seq<Event>)
    requires Accounted(c, s) && c.mode.SparseFile? && Ahead(c, s) && CanRun(c, s, events)
    ensures Ahead(c, Run(c, s, events))
    decreases |events|
  {
    hide Accounted, Step, Shape, Enabled, Ahead;
    if events != [] {
      StepKeeps(c, s, events[0]);
      StepAhead(c, s, events[0]);
      RunAhead(c, Step(c, s, events[0]), events[1..]);
    }
  }

  lemma {:induction false} LaunchAhead(c: Config, s: State, envs: seq<Env>, n: nat)
    requires ValidConfig(c) && c.mode.SparseFile? && Init(c, s) && ChunksFit(c, c.inStart) && n <= |s.ios| == |envs|
    ensures Ahead(c, Launch(c, s, envs, n))
  {
    hide RoundUp, Multiple, TargetSeek, ChunksFit, Measure, Accounted;
    if n > 0 {
      LaunchAhead(c, s, envs, n - 1);
      LaunchKeeps(c, s, envs, n - 1);
      SeekAhead(c, Launch(c, s, envs, n - 1), n - 1, envs[n - 1]);
    }
  }

  lemma SeekDoomed(c: Config, s: State, i: nat)
    requires ValidConfig(c) && c.mode.SparseFile? && i < |s.ios| && s.ios[i].stage.Idle? && |s.ios[i].buf| == c.unit
    requires c.inStart <= s.pos && !Halted(s) && !ChunksFit(c, s.pos)
    ensures Doomed(c, TargetSeek(c, s, i, ACCEPTED))
  {
    hide RoundUp, Multiple, NextData, NextHole, PopulateBuffer, ChunkLength;
    var next := NextData(c.data, s.pos);
    assert Remaining(c, s) != 0 && next.Some?;
    var t := s.(pos := next.value);
    SkipChunks(c, s.pos, t.pos);
    FileChunk(c, t.pos);
    hide ChunksFit;
    PopulateDoomed(c, WithLength(t, i, Min(c.unit, NextHole(c.data, t.pos) - t.pos)), i);
  }

  lemma StepDoomed(c: Config, s: State, e: Event)
    requires Accounted(c, s) && c.mode.SparseFile? && !Halted(s) && !ChunksFit(c, s.pos) && Shape(c, s) && Enabled(c, s, e)
    requires e.Transfer? || (e.Completion? && !e.flagged && e.env == ACCEPTED)
    ensures Doomed(c, Step(c, s, e))
  {
    hide RoundUp, Multiple, Sub64, TargetSeek, ChunksFit, Sum;
    if e.Completion? && s.ios[e.i].stage.Writing? {
      assert GoodIo(c, s.ios[e.i]);
      SeekDoomed(c, Park(s, e.i).(outstanding := s.outstanding - 1), e.i);
    }
  }

  lemma NotOver(c: Config, s: State)
    requires Accounted(c, s) && c.mode.SparseFile? && !Halted(s) && !ChunksFit(c, s.pos)
    ensures s.exits == []
  {
    hide RoundUp, Multiple, NextData, Sum, GoodIos;
  }

  /** A copy with a chunk ahead that is too long comes to submit it. */
  lemma {:induction false} Overrun(c: Config, s: State) returns (events: seq<Event>, r: State)
    requires Accounted(c, s) && c.mode.SparseFile? && !Halted(s) && (s.outstanding == 0 ==> s.exits != []) && Doomed(c, s)
    ensures Reaches(c, s, events, r) && !TransfersFit(c, r)
    decreases Measure(c, s)
  {
    hide RoundUp, Multiple, NextData, Step, Enabled, Faithful, Shape, Measure, GoodIos, Sum, ChunksFit, TransfersFit;
    MeasureNonnegative(c, s);
    if !TransfersFit(c, s) {
      events, r := [], s;
    } else {
      NotOver(c, s);
      FlyingBounds(s.ios);
      var i: nat :| i < |s.ios| && InFlight(s.ios[i]);
      AccountedShape(c, s);
      ChainOnly(c, s, i);
      var e := NextEvent(c, s, i);
      StepKeeps(c, s, e);
      StepStaysHealthy(c, s, e);
      StepDoomed(c, s, e);
      var rest;
      rest, r := Overrun(c, Step(c, s, e));
      ReachesFirst(c, s, e, rest, r);
      events := [e] + rest;
    }
  }

  /** In every reachable state of a sparse copy of a file every transfer fits its buffer,
      if and only if each of its chunks fits when rounded up to output blocks. */
  lemma SparseTransfersFitIff(c: Config)
    requires ValidConfig(c) && c.mode.SparseFile?
    ensures AlwaysFits(c) <==> ChunksFit(c, c.inStart)
  {
    hide ChunksFit, Launch, TransfersFit, Accounted, CanRun;
    if ChunksFit(c, c.inStart) {
      forall s: State, envs: seq<Env>, events: seq<Event> | ProgramRun(c, s, envs, events)
        ensures TransfersFit(c, Outcome(c, s, envs, events))
      {
        LaunchAhead(c, s, envs, |s.ios|);
        LaunchKeeps(c, s, envs, |s.ios|);
        RunAhead(c, Launch(c, s, envs, |s.ios|), events);
        RunKeeps(c, Launch(c, s, envs, |s.ios|), events);
        AccountedFits(c, Outcome(c, s, envs, events));
      }
    } else {
      var s := Initial(c, 1, []);
      var t := Launch(c, s, Accepting(1), 1);
      LaunchKeeps(c, s, Accepting(1), 1);
      LaunchStaysHealthy(c, s, 1);
      assert Doomed(c, t) by { FirstDoomed(c, s); }
      var events, r := Overrun(c, t);
      assert ProgramRun(c, s, Accepting(1), events);
      assert !TransfersFit(c, Outcome(c, s, Accepting(1), events));
    }
  }

  lemma AccountedFits(c: Config, s: State)
    requires Accounted(c, s) && Ahead(c, s)
    ensures TransfersFit(c, s)
  {
    hide ChunksFit, TransfersFit;
    RoomyFits(c, s);
  }

  lemma FirstDoomed(c: Config, s: State)
    requires ValidConfig(c) && c.mode.SparseFile? && Init(c, s) && !s.interrupt && |s.ios| == 1 && !ChunksFit(c, c.inStart)
    ensures Doomed(c, Launch(c, s, Accepting(1), 1))
  {
    hide ChunksFit, TargetSeek, Doomed;
    assert Launch(c, s, Accepting(1), 0) == s;
    SeekDoomed(c, s, 0);
  }

  // --------------------------------------------------- sparse copies from a bdev

  /** A context outside the copy chain, or one that keeps its range, changes nothing. */
  lemma SameAhead(c: Config, s: State, r: State, i: nat)
    requires Ahead(c, s) && r.pos == s.pos && i < |s.ios| == |r.ios| && r.ios == s.ios[i := r.ios[i]]
    requires InChain(r.ios[i]) ==> InChain(s.ios[i]) && r.ios[i].length == s.ios[i].length
    ensures Ahead(c, r)
  {
    hide RoundUp, ChunksFit;
  }

  lemma CompleteRange(c: Config, s: State, i: nat, flagged: bool, env: Env)
    requires c.mode.SparseBdev? && c.inStart <= s.pos && c.outBs > 0 && i < |s.ios| && InChain(s.ios[i])
    ensures var r := DdModel.Complete(c, s, i, flagged, env);
      && r.pos == s.pos && |r.ios| == |s.ios| && r.ios == s.ios[i := r.ios[i]]
      && r.ios[i].length == s.ios[i].length && r.ios[i].buf == s.ios[i].buf
  {
    hide Multiple, RoundUp, Sub64, NextHole, NextData, PopulateBuffer, SeekFile;
  }

  /** Where a data seek leaves the cursor. */
  lemma DataSeekMoves(c: Config, s: State, i: nat, env: Env)
    requires Ordered(c, s) && !Halted(s) && i < |s.ios| && s.ios[i].stage.SeekingData? && s.seekQueue != []
    ensures c.inBs > 0 && c.inStart <= s.pos
    ensures NextData(c.data, s.pos).Some? ==> Sub64(c.copySize, s.pos - c.inStart) != 0
    ensures var r := SeekDataDone(c, s, i, env);
      && |r.ios| == |s.ios| && r.ios == s.ios[i := r.ios[i]] && !InChain(r.ios[i])
      && r.pos == match NextData(c.data, s.pos) case None => s.pos case Some(d) => d
  {
    hide NextData, Extend, Ledger, Sum, GoodIos, Multiple, RoundUp, QueueShape;
    OnBlock(c, s);
    OrderedMode(c, s);
    if NextData(c.data, s.pos).Some? {
      SeekOnBlocks(c, s.pos);
      BlockStart(NextData(c.data, s.pos).value, c.inBs);
    }
  }

  lemma HoleSeekAhead(c: Config, s: State, i: nat, env: Env)
    requires Ordered(c, s) && Ahead(c, s) && Shape(c, s) && !Halted(s)
    requires i < |s.ios| && s.ios[i].stage.SeekingHole? && s.seekQueue != []
    ensures Ahead(c, SeekHoleDone(c, s, i, env))
  {
    hide Ordered, Shape, Ahead, Multiple, RoundUp, NextHole, PopulateBuffer, GoodIos, SeekHoleDone, ChunkLength, Remaining, Sum,
      Accounted;
    HoleSeekParts(c, s, i, env);
    var u := Chosen(c, s, i);
    SameAhead(c, s, u, i);
    PopulateAhead(c, u, i, env.rc);
    var p := PopulateBuffer(c, u, i, env.rc);
    if p.seekQueue != [] { SameAhead(c, p, StartNextSeek(c, p, env.seekRc), p.seekQueue[0]); }
  }

  lemma DataSeekAhead(c: Config, s: State, i: nat, env: Env)
    requires Ordered(c, s) && Ahead(c, s) && !Halted(s) && i < |s.ios| && s.ios[i].stage.SeekingData? && s.seekQueue != []
    ensures c.inBs > 0 && Ahead(c, SeekDataDone(c, s, i, env))
  {
    hide Ordered, NextData, SeekDataDone, ChunksFit, RoundUp, Sub64;
    DataSeekMoves(c, s, i, env);
    var next := NextData(c.data, s.pos);
    var d := if next.None? then s.pos else next.value;
    if next.Some? { SkipChunks(c, s.pos, d); }
    SameAhead(c, s.(pos := d), SeekDataDone(c, s, i, env), i);
  }

  lemma BdevStepAhead(c: Config, s: State, e: Event)
    requires Ordered(c, s) && Ahead(c, s) && Shape(c, s) && Enabled(c, s, e)
    ensures Ahead(c, Step(c, s, e))
  {
    hide Ordered, Multiple, RoundUp, Sub64, NextHole, NextData, PopulateBuffer, XferLen, DdModel.Complete, SeekDataDone,
      SeekHoleDone, ChunksFit;
    OrderedMode(c, s);
    var r := Step(c, s, e);
    match e
    case Transfer(i, k) => SameAhead(c, s, r, i);
    case Completion(i, flagged, env) =>
      CompleteRange(c, s, i, flagged, env);
      SameAhead(c, s, r, i);
    case SeekDone(i, env) =>
      if Halted(s) {
        HaltedSeekSpends(c, s, i, env);
        SameAhead(c, s, r, i);
      } else if s.ios[i].stage.SeekingHole? {
        HoleSeekAhead(c, s, i, env);
      } else {
        DataSeekAhead(c, s, i, env);
      }
    case Tick =>
    case Interrupt =>
  }

  lemma {:induction false} BdevRunAhead(c: Config, s: State, events: seq<Event>)
    requires Ordered(c, s) && Ahead(c, s) && CanRun(c, s, events)
    ensures Ahead(c, Run(c, s, events)) && Ordered(c, Run(c, s, events))
    decreases |events|
  {
    hide Ordered, Step, Shape, Enabled, Ahead;
    if events != [] {
      StepOrdered(c, s, events[0]);
      BdevStepAhead(c, s, events[0]);
      BdevRunAhead(c, Step(c, s, events[0]), events[1..]);
    }
  }

  lemma OrderedFits(c: Config, s: State)
    requires Ordered(c, s) && Ahead(c, s)
    ensures TransfersFit(c, s)
  {
    hide ChunksFit, TransfersFit, QueueShape, Live, Sum;
    RoomyFits(c, s);
  }

  /** A chunk that is too long stays ahead, or is submitted, when the next seek starts. */
  lemma StartNextDoomed(c: Config, s: State)
    requires Doomed(c, s) && QueueShape(s.ios, s.seekQueue)
    ensures Doomed(c, StartNextSeek(c, s, 0))
  {
    hide ChunksFit, XferLen;
    var r := StartNextSeek(c, s, 0);
    if !TransfersFit(c, s) {
      var i: nat :| i < |s.ios| && InChain(s.ios[i]) && XferLen(c, s.ios[i]) > |s.ios[i].buf|;
      assert r.ios[i] == s.ios[i];
    }
  }

  lemma HoleSeekDoomed(c: Config, s: State, i: nat)
    requires Ordered(c, s) && Shape(c, s) && !Halted(s) && c.inStart <= s.pos && !ChunksFit(c, s.pos)
    requires i < |s.ios| && s.ios[i].stage.SeekingHole? && s.seekQueue != []
    ensures Doomed(c, SeekHoleDone(c, s, i, ACCEPTED))
  {
    hide Shape, Doomed, Multiple, RoundUp, NextHole, PopulateBuffer, SeekHoleDone, ChunkLength, Remaining, Sum, StartNextSeek,
      Accounted, Ledger, Live, ChunksFit;
    HoleSeekParts(c, s, i, ACCEPTED);
    var u := Chosen(c, s, i);
    assert GoodIo(c, s.ios[i]);
    ChunkBounds(c, u, i);
    PopulateDoomed(c, u, i);
    StartNextDoomed(c, PopulateBuffer(c, u, i, 0));
  }

  lemma SeekDoneHealthy(c: Config, s: State, i: nat)
    requires Shape(c, s) && Enabled(c, s, SeekDone(i, ACCEPTED)) && !Halted(s)
    ensures !Halted(Step(c, s, SeekDone(i, ACCEPTED)))
  {
    hide Multiple, RoundUp, Sub64, NextData, NextHole, XferLen, Extend;
  }

  lemma BdevStepDoomed(c: Config, s: State, e: Event)
    requires Ordered(c, s) && !Halted(s) && c.inStart <= s.pos && c.outBs > 0 && !ChunksFit(c, s.pos)
    requires Shape(c, s) && Enabled(c, s, e)
    requires e.Transfer? || (e.Completion? && !e.flagged && e.env == ACCEPTED) || (e.SeekDone? && e.env == ACCEPTED)
    ensures Doomed(c, Step(c, s, e)) && !Halted(Step(c, s, e))
  {
    hide Ordered, Multiple, RoundUp, Sub64, NextHole, NextData, PopulateBuffer, XferLen, DdModel.Complete, SeekDataDone,
      SeekHoleDone, ChunksFit, Halted;
    OrderedMode(c, s);
    match e
    case Transfer(i, k) => StepStaysHealthy(c, s, e);
    case Completion(i, flagged, env) =>
      StepStaysHealthy(c, s, e);
      CompleteRange(c, s, i, flagged, env);
    case SeekDone(i, env) =>
      SeekDoneHealthy(c, s, i);
      if s.ios[i].stage.SeekingHole? {
        HoleSeekDoomed(c, s, i);
      } else {
        DataSeekMoves(c, s, i, env);
        if NextData(c.data, s.pos).Some? { SkipChunks(c, s.pos, NextData(c.data, s.pos).value); }
      }
  }

  /** With a chunk ahead there is data ahead, and the copy is not over. */
  lemma DoomedGoesOn(c: Config, s: State)
    requires Ordered(c, s) && !Halted(s) && c.inStart <= s.pos && c.outBs > 0 && !ChunksFit(c, s.pos)
    ensures !NoData(c) && s.exits == []
  {
    hide RoundUp, Multiple, NextData, Sum, GoodIos, QueueShape, Live, Ledger, InBlocks;
  }

  /** The next event of a copy from a bdev with something in flight. */
  lemma NextBdevEvent(c: Config, s: State) returns (e: Event)
    requires Ordered(c, s) && Shape(c, s) && !Halted(s) && s.outstanding > 0
    ensures Enabled(c, s, e) && Faithful(c, s, e) && Progresses(e)
    ensures e.Transfer? || (e.Completion? && !e.flagged && e.env == ACCEPTED) || (e.SeekDone? && e.env == ACCEPTED)
  {
    hide Ordered, Sum, XferLen;
    NotExited(c, s);
    FlyingBounds(s.ios);
    var i: nat :| i < |s.ios| && InFlight(s.ios[i]);
    if InChain(s.ios[i]) { e := NextEvent(c, s, i); } else { e := SeekDone(i, ACCEPTED); }
  }

  lemma {:induction false} BdevOverrun(c: Config, s: State) returns (events: seq<Event>, r: State)
    requires Ordered(c, s) && !Halted(s) && |s.ios| == 1 && Awake(c, s) && Doomed(c, s)
    ensures Reaches(c, s, events, r) && !TransfersFit(c, r)
    decreases Budget(c, s)
  {
    hide Step, Enabled, Faithful, Shape, Budget, Sum, ChunksFit, TransfersFit, Base, Accounted, Live, Halted, QueueShape, Stuck,
      NoData, Run, CanRun, FaithfulRun;
    BudgetNonnegative(c, s);
    if !TransfersFit(c, s) {
      events, r := [], s;
      NoEvents(c, s);
    } else {
      DoomedGoesOn(c, s);
      NotExited(c, s);
      CountNonnegative(c, s);
      OrderedShape(c, s);
      var e := NextBdevEvent(c, s);
      StepOrdered(c, s, e);
      StepSpends(c, s, e);
      StepAwake(c, s, e);
      BdevStepDoomed(c, s, e);
      var rest;
      rest, r := BdevOverrun(c, Step(c, s, e));
      ReachesFirst(c, s, e, rest, r);
      events := [e] + rest;
    }
  }

  lemma CountNonnegative(c: Config, s: State)
    requires Ordered(c, s)
    ensures s.outstanding >= 0
  {
    hide Base, QueueShape, Live, Sum, GoodIos;
    FlyingBounds(s.ios);
  }

  ghost predicate BdevAlwaysFits(c: Config) {
    c.outBs > 0 &&
    forall s: State, envs: seq<Env>, events: seq<Event> ::
      BdevRun(c, s, envs, events) ==> TransfersFit(c, BdevOutcome(c, s, envs, events))
  }

  /** The same for sparse copies from a bdev. */
  lemma BdevTransfersFitIff(c: Config)
    requires BdevConfig(c)
    ensures BdevAlwaysFits(c) <==> ChunksFit(c, c.inStart)
  {
    hide ChunksFit, Launch, TransfersFit, CanRun, Ordered, Started, InBlocks, Awake, Barren;
    if ChunksFit(c, c.inStart) {
      forall s: State, envs: seq<Env>, events: seq<Event> | BdevRun(c, s, envs, events)
        ensures TransfersFit(c, BdevOutcome(c, s, envs, events))
      {
        var t := Launch(c, s, envs, |s.ios|);
        LaunchOrdered(c, s, envs, |s.ios|);
        if |s.ios| >= 1 { LaunchStarts(c, s, envs, |s.ios|); }
        BdevRunAhead(c, t, events);
        OrderedFits(c, BdevOutcome(c, s, envs, events));
      }
    } else {
      var s := Initial(c, 1, []);
      var t := Launch(c, s, Accepting(1), 1);
      LaunchOrdered(c, s, Accepting(1), 1);
      LaunchStaysHealthy(c, s, 1);
      LaunchStarts(c, s, Accepting(1), 1);
      StartedIsAwake(c, t);
      var events, r := BdevOverrun(c, t);
      assert BdevRun(c, s, Accepting(1), events);
      assert !TransfersFit(c, BdevOutcome(c, s, Accepting(1), events));
    }
  }
}
