/** Sparse copies from a bdev: the seek queue. At most one seek is in flight and it
    belongs to the head of the queue, and what is skipped is a hole, in every run and
    whatever the transfers do. A copy that ends without error is correct. */
module DdSeekQueue {
  import opened Arith
  import opened ByteOrder
  import opened DdModel
  import opened DdAccounting
  import opened DdCopy
  import opened DdTally

  // ---------------------------------------------------------- the invariant

  predicate Waiting(io: Io) {
    io.stage.Queued? || Seeking(io)
  }

  /** The queue lists each waiting context once, and only its head may be seeking. */
  ghost predicate QueueShape(ios: seq<Io>, queue: seq<nat>) {
    && (forall j :: 0 <= j < |queue| ==> queue[j] < |ios| && Waiting(ios[queue[j]]))
    && (forall j, k :: 0 <= j < k < |queue| ==> queue[j] != queue[k])
    && (forall j :: 1 <= j < |queue| ==> ios[queue[j]].stage.Queued?)
    && (forall i :: 0 <= i < |ios| && Waiting(ios[i]) ==> i in queue)
  }

  predicate HeadSeeks(s: State)
    requires forall j :: 0 <= j < |s.seekQueue| ==> s.seekQueue[j] < |s.ios|
  {
    s.seekQueue != [] && Seeking(s.ios[s.seekQueue[0]])
  }

  /** Contexts wait although no seek is in flight that could wake them. */
  predicate Stuck(c: Config, s: State)
    requires forall j :: 0 <= j < |s.seekQueue| ==> s.seekQueue[j] < |s.ios|
  {
    s.seekQueue != [] && !HeadSeeks(s) && s.pos < End(c)
  }

  /** Without an error: the cursor is on an input block, a hole is sought from a data
      byte, and a stuck queue means that there is no data left. */
  ghost predicate Live(c: Config, s: State)
    requires c.inBs > 0 && forall j :: 0 <= j < |s.seekQueue| ==> s.seekQueue[j] < |s.ios|
  {
    && Multiple(s.pos, c.inBs)
    && (Stuck(c, s) ==> NextData(c.data, s.pos).None?)
    && (HeadSeeks(s) && s.ios[s.seekQueue[0]].stage.SeekingHole? ==> DataAt(c, s.pos))
  }

  ghost predicate BdevConfig(c: Config) {
    ValidConfig(c) && c.mode.SparseBdev? && InBlocks(c)
  }

  /** What holds of the cursor, the contexts and the claims. */
  ghost predicate Base(c: Config, s: State) {
    BdevConfig(c) && InBounds(c, s) && Ledger(c, s, 0)
  }

  /** Everything in flight is counted. After an error or an interrupt the count may be
      too high, because seeks that end then are not taken off it. */
  ghost predicate Counted(s: State) {
    s.outstanding >= Sum(Flying, s.ios)
  }

  ghost predicate Ordered(c: Config, s: State) {
    && Base(c, s)
    && QueueShape(s.ios, s.seekQueue)
    && (if Halted(s) then Counted(s) else Accounted(c, s) && Live(c, s))
  }

  // ----------------------------------------------------------- queue surgery

  /** Only the head of the queue is seeking. */
  lemma SeekerIsHead(ios: seq<Io>, queue: seq<nat>, i: nat)
    requires QueueShape(ios, queue) && i < |ios| && Seeking(ios[i])
    ensures queue != [] && queue[0] == i
  {
    assert i in queue;
  }

  lemma Dequeue(ios: seq<Io>, queue: seq<nat>, io: Io)
    requires QueueShape(ios, queue) && queue != [] && !Waiting(io)
    ensures QueueShape(ios[queue[0] := io], queue[1..])
  {
    var ios', q := ios[queue[0] := io], queue[1..];
    forall i | 0 <= i < |ios'| && Waiting(ios'[i]) ensures i in q {
      assert i in queue && i != queue[0];
    }
  }

  lemma Enqueue(ios: seq<Io>, queue: seq<nat>, i: nat, io: Io)
    requires QueueShape(ios, queue) && i < |ios| && !Waiting(ios[i])
    requires if queue == [] then Waiting(io) else io.stage.Queued?
    ensures QueueShape(ios[i := io], queue + [i])
  {
    var ios', q := ios[i := io], queue + [i];
    assert i !in queue;
    assert forall j :: 0 <= j < |queue| ==> q[j] == queue[j];
    forall k | 0 <= k < |ios'| && Waiting(ios'[k]) ensures k in q {
      assert k == i || k in queue;
      assert q[|queue|] == i;
    }
  }

  /** A context outside the queue stays outside. */
  lemma Elsewhere(ios: seq<Io>, queue: seq<nat>, i: nat, io: Io)
    requires QueueShape(ios, queue) && i < |ios| && !Waiting(ios[i]) && !Waiting(io)
    ensures QueueShape(ios[i := io], queue)
  {
    assert i !in queue;
  }

  lemma HeadMoves(ios: seq<Io>, queue: seq<nat>, io: Io)
    requires QueueShape(ios, queue) && queue != [] && Waiting(io)
    ensures QueueShape(ios[queue[0] := io], queue)
  {
  }

  // ------------------------------------------------------------------ alignment

  lemma BlockStart(p: nat, bs: nat)
    requires bs > 0 && Multiple(p, bs)
    ensures (p / bs) * bs == p
  {
  }

  /** Data and holes of a bdev begin on blocks. */
  lemma SeekOnBlocks(c: Config, p: nat)
    requires BdevConfig(c) && Multiple(p, c.inBs) && p <= |c.data|
    ensures Multiple(NextHole(c.data, p), c.inBs)
    ensures NextData(c.data, p).Some? ==> Multiple(NextData(c.data, p).value, c.inBs)
  {
    hide RoundUp, ValidConfig;
    var hole := NextHole(c.data, p);
    if p < hole < |c.data| { assert c.data[hole] != c.data[hole - 1]; }
    var next := NextData(c.data, p);
    if next.Some? && next.value > p { assert c.data[next.value] != c.data[next.value - 1]; }
  }

  // ------------------------------------------------ the cursor and the contexts

  /** Moving through the queue and failing seeks change nothing about them. */
  lemma ReplaceBase(c: Config, s: State, r: State, i: nat)
    requires Base(c, s) && i < |s.ios| == |r.ios| && r.ios == s.ios[i := r.ios[i]]
    requires !InChain(s.ios[i]) && !InChain(r.ios[i]) && r.ios[i].buf == s.ios[i].buf && r.ios[i].length == s.ios[i].length
    requires r.pos == s.pos && r.claims == s.claims && (Halted(s) ==> Halted(r))
    requires Halted(r) || (r.exits == s.exits && r.incBytes == s.incBytes && r.totalBytes == s.totalBytes)
    ensures Base(c, r)
  {
    hide Multiple, RoundUp, Ledger, InBlocks;
    assert GoodIo(c, s.ios[i]);
    ReplaceTallies(c, s, r, i);
  }

  lemma SkipBase(c: Config, s: State)
    requires Base(c, s) && s.pos < End(c) && s.exits == [] && NextData(c.data, s.pos).Some?
    ensures var d := NextData(c.data, s.pos).value;
      s.pos <= d < End(c) && DataAt(c, d) && Base(c, s.(pos := d))
  {
    hide Multiple, RoundUp, NextData, Tiled, Tallied, InBlocks, Contained;
    DataInside(c, s);
    SkipTallies(c, s, NextData(c.data, s.pos).value);
  }

  // ------------------------------------------------------------- a data seek ends

  /** The queue does not matter to the count. */
  lemma RequeueKeeps(c: Config, s: State, q: seq<nat>)
    requires Accounted(c, s) && c.mode.SparseBdev?
    ensures Accounted(c, s.(seekQueue := q))
  {
    hide Multiple, RoundUp, NextData, Sub64, Sum;
  }

  /** A context leaves the queue: its seek is over. */
  lemma LeaveQueue(c: Config, s: State, i: nat)
    requires Ordered(c, s) && i < |s.ios| && Seeking(s.ios[i]) && !Halted(s)
    ensures s.seekQueue != []
    ensures var t := Park(s, i).(outstanding := s.outstanding - 1, seekQueue := s.seekQueue[1..]);
      && Base(c, t) && QueueShape(t.ios, t.seekQueue) && !HeadSeeks(t)
      && Held(c, t, i) && t.exits == [] && t.outstanding == Sum(Flying, t.ios) >= 0
  {
    hide Multiple, RoundUp, NextData, Ledger, Sum, GoodIos, InBlocks;
    SeekerIsHead(s.ios, s.seekQueue, i);
    var t := Park(s, i).(outstanding := s.outstanding - 1);
    ParkKeeps(c, s, i, s.error);
    RequeueKeeps(c, t, s.seekQueue[1..]);
    ReplaceBase(c, s, t.(seekQueue := s.seekQueue[1..]), i);
    Dequeue(s.ios, s.seekQueue, t.ios[i]);
    FlyingBounds(t.ios);
  }

  /** A data seek that found nothing. */
  lemma NoDataDone(c: Config, s: State, i: nat, env: Env)
    requires Ordered(c, s) && i < |s.ios| && s.ios[i].stage.SeekingData? && !Halted(s)
    requires NextData(c.data, s.pos).None? && s.seekQueue != []
    ensures Ordered(c, SeekDataDone(c, s, i, env))
  {
    hide Multiple, RoundUp, NextData, Ledger, Sum, GoodIos, InBlocks, FinalizeOutput, QueueShape;
    BlockStart(s.pos, c.inBs);
    LeaveQueue(c, s, i);
    var t := Park(s, i).(outstanding := s.outstanding - 1, seekQueue := s.seekQueue[1..]);
    FinalizeTallies(c, t, env.endErr);
    FinalizeKeeps(c, t, env.endErr);
    FinalizeLive(c, t, env.endErr);
  }

  lemma FinalizeLive(c: Config, s: State, endErr: int)
    requires BdevConfig(c) && QueueShape(s.ios, s.seekQueue) && Multiple(s.pos, c.inBs)
    requires NextData(c.data, s.pos).None? && !HeadSeeks(s)
    ensures var r := FinalizeOutput(c, s, endErr); QueueShape(r.ios, r.seekQueue) && Live(c, r)
  {
    hide Multiple, NextData, Extend;
  }

  /** A data seek that found data: the cursor skips the hole and the same context
      goes on to seek the next hole. */
  lemma DataDone(c: Config, s: State, i: nat, env: Env)
    requires Ordered(c, s) && i < |s.ios| && s.ios[i].stage.SeekingData? && !Halted(s)
    requires NextData(c.data, s.pos).Some? && s.seekQueue != []
    ensures Ordered(c, SeekDataDone(c, s, i, env))
  {
    hide Multiple, RoundUp, NextData, Ledger, Sum, GoodIos, InBlocks, Sub64;
    BlockStart(s.pos, c.inBs);
    SeekOnBlocks(c, s.pos);
    var d := NextData(c.data, s.pos).value;
    BlockStart(d, c.inBs);
    ParkKeeps(c, s, i, s.error);
    var t := Park(s, i).(outstanding := s.outstanding - 1);
    ReplaceBase(c, s, t, i);
    SkipBase(c, t);
    SkipKeeps(c, t, i, d);
    var u := t.(pos := d);
    SeekerIsHead(s.ios, s.seekQueue, i);
    var r := SeekDataDone(c, s, i, env);
    if env.seekRc != 0 {
      Dequeue(s.ios, s.seekQueue, t.ios[i]);
      ReplaceBase(c, u, r, i);
    } else {
      assert GoodIo(c, u.ios[i].(stage := SeekingHole, done := {})) by { HeldIsGood(c, u, i); }
      SubmitKeeps(c, u, i, SeekingHole);
      assert r.ios == s.ios[i := r.ios[i]];
      HeadMoves(s.ios, s.seekQueue, r.ios[i]);
      ReplaceBase(c, u, r, i);
    }
  }

  lemma HeldIsGood(c: Config, s: State, i: nat)
    requires Accounted(c, s) && i < |s.ios|
    ensures |s.ios[i].buf| == c.unit && s.ios[i].length <= c.unit
  {
    hide Multiple, RoundUp;
  }

  // ------------------------------------------------------------- a hole seek ends

  /** The next context in the queue starts its data seek, even after an error. */
  lemma StartNextOrdered(c: Config, s: State, seekRc: int)
    requires Base(c, s) && QueueShape(s.ios, s.seekQueue) && !HeadSeeks(s) && Counted(s)
    requires !Halted(s) ==> Accounted(c, s) && Multiple(s.pos, c.inBs) && (s.exits == [] || s.pos == |c.input|)
    ensures Ordered(c, StartNextSeek(c, s, seekRc))
  {
    hide Multiple, RoundUp, NextData, Ledger, Sum, GoodIos, InBlocks, Sub64;
    var r := StartNextSeek(c, s, seekRc);
    if s.seekQueue != [] && s.pos < |c.input| {
      var head := s.seekQueue[0];
      ReplaceBase(c, s, r, head);
      if seekRc == 0 {
        HeadMoves(s.ios, s.seekQueue, r.ios[head]);
        SumUpdate(Flying, s.ios, head, r.ios[head]);
        if !Halted(s) {
          HeldIsGood(c, s, head);
          SubmitKeeps(c, s, head, SeekingData);
        }
      }
    }
  }

  /** What taking a chunk does besides copying: only context `i` changes, and it
      leaves a transfer in flight unless the submission fails. */
  lemma PopulateEffect(c: Config, s: State, i: nat, rc: int)
    requires ValidConfig(c) && c.inStart <= s.pos && i < |s.ios| && s.ios[i].stage.Idle? && !Halted(s)
    requires Aim(c, s, i).ios[i].length > 0
    ensures var r := PopulateBuffer(c, s, i, rc);
      && |r.ios| == |s.ios| && r.ios == s.ios[i := r.ios[i]] && !Waiting(r.ios[i])
      && r.seekQueue == s.seekQueue && r.pos == s.pos + Aim(c, s, i).ios[i].length
      && (Halted(r) || (r.exits == s.exits && r.outstanding == s.outstanding + 1))
  {
    hide Multiple, RoundUp, Sub64, Remaining;
  }

  /** The end of a chunk is on an input block. */
  lemma ChunkOnBlocks(c: Config, s: State, i: nat)
    requires BdevConfig(c) && c.inStart <= s.pos <= End(c) && i < |s.ios|
    requires Multiple(s.pos, c.inBs) && ChunkLength(c, s.pos, s.ios[i].length)
    ensures Multiple(s.pos + Aim(c, s, i).ios[i].length, c.inBs)
  {
    hide Multiple, RoundUp, Contained, Aligned, NextHole;
    SeekOnBlocks(c, s.pos);
    var n, hole := s.ios[i].length, NextHole(c.data, s.pos);
    assert Remaining(c, s) == |c.data| - s.pos;
    MultipleAdd(s.pos, c.unit, c.inBs);
    assert s.pos + (hole - s.pos) == hole && s.pos + (|c.data| - s.pos) == |c.data|;
  }

  /** A hole seek that ends without error: the chunk is taken. */
  lemma HoleChunk(c: Config, s: State, i: nat, n: nat, rc: int)
    requires Base(c, s) && QueueShape(s.ios, s.seekQueue) && !HeadSeeks(s)
    requires Held(c, s, i) && !Halted(s) && s.exits == []
    requires s.pos < End(c) && DataAt(c, s.pos) && Multiple(s.pos, c.inBs) && ChunkLength(c, s.pos, n)
    ensures var r := PopulateBuffer(c, WithLength(s, i, n), i, rc);
      && Base(c, r) && QueueShape(r.ios, r.seekQueue) && !HeadSeeks(r) && r.seekQueue == s.seekQueue
      && |r.ios| == |s.ios| && Accounted(c, r)
      && (!Halted(r) ==> Multiple(r.pos, c.inBs) && r.exits == [])
  {
    hide Multiple, RoundUp, Ledger, Sum, GoodIos, InBlocks, Sub64, NextHole, PopulateBuffer;
    var u := WithLength(s, i, n);
    ChunkTallies(c, s, i, n, rc);
    ChunkBounds(c, u, i);
    WithLengthKeeps(c, s, i, n);
    PopulateKeeps(c, u, i, rc);
    PopulateEffect(c, u, i, rc);
    ChunkOnBlocks(c, u, i);
    var r := PopulateBuffer(c, u, i, rc);
    assert i !in s.seekQueue;
    assert r.ios == s.ios[i := r.ios[i]];
    Elsewhere(s.ios, s.seekQueue, i, r.ios[i]);
  }

  lemma ChunkBounds(c: Config, s: State, i: nat)
    requires ValidConfig(c) && i < |s.ios| && c.inStart <= s.pos < End(c) && DataAt(c, s.pos)
    requires ChunkLength(c, s.pos, s.ios[i].length)
    ensures 0 < s.ios[i].length <= c.unit && 0 < Aim(c, s, i).ios[i].length && s.pos + Aim(c, s, i).ios[i].length <= End(c)
  {
    hide Multiple, RoundUp;
  }

  /** The length that a hole seek gives a context. */
  function HoleLength(c: Config, pos: nat): (n: nat)
    requires pos <= |c.data|
    ensures End(c) == |c.data| ==> ChunkLength(c, pos, n)
  {
    hide NextHole;
    var hole := NextHole(c.data, pos);
    if hole == |c.data| || hole < pos then c.unit else Min(c.unit, hole - pos)
  }

  lemma HoleDone(c: Config, s: State, i: nat, env: Env)
    requires Ordered(c, s) && i < |s.ios| && s.ios[i].stage.SeekingHole? && !Halted(s)
    requires Shape(c, s) && s.seekQueue != []
    ensures Ordered(c, SeekHoleDone(c, s, i, env))
  {
    hide Multiple, RoundUp, Ledger, Sum, GoodIos, InBlocks, Sub64, NextHole, PopulateBuffer, StartNextSeek, XferLen, ChunkLength;
    BlockStart(s.pos, c.inBs);
    SeekerIsHead(s.ios, s.seekQueue, i);
    LeaveQueue(c, s, i);
    var t := Park(s, i).(outstanding := s.outstanding - 1, seekQueue := s.seekQueue[1..]);
    var n := HoleLength(c, s.pos);
    HoleChunk(c, t, i, n, env.rc);
    StartNextOrdered(c, PopulateBuffer(c, WithLength(t, i, n), i, env.rc), env.seekRc);
    assert WithLength(Park(s, i), i, n).(outstanding := s.outstanding - 1, seekQueue := s.seekQueue[1..]) == WithLength(t, i, n);
  }

  /** A seek that ends after an error or an interrupt is not taken off the count. */
  lemma HaltedSeekDone(c: Config, s: State, i: nat, env: Env)
    requires Ordered(c, s) && i < |s.ios| && Seeking(s.ios[i]) && Halted(s)
    requires Shape(c, s) && Enabled(c, s, SeekDone(i, env))
    ensures Ordered(c, Step(c, s, SeekDone(i, env)))
  {
    hide Multiple, RoundUp, Ledger, Sum, BdevConfig, Sub64, NextHole, NextData, PopulateBuffer, XferLen;
    SeekerIsHead(s.ios, s.seekQueue, i);
    var r := Step(c, s, SeekDone(i, env));
    ReplaceBase(c, s, r, i);
    Dequeue(s.ios, s.seekQueue, r.ios[i]);
    SumUpdate(Flying, s.ios, i, r.ios[i]);
  }

  // ------------------------------------------------- transfers, and joining the queue

  /** What stays in order when only context `i`, outside the queue, changes. */
  lemma OrderedElsewhere(c: Config, s: State, r: State, i: nat)
    requires BdevConfig(c) && QueueShape(s.ios, s.seekQueue) && (Halted(r) || Live(c, s))
    requires i < |s.ios| == |r.ios| && r.ios == s.ios[i := r.ios[i]] && !Waiting(s.ios[i]) && !Waiting(r.ios[i])
    requires r.seekQueue == s.seekQueue && r.pos == s.pos
    ensures QueueShape(r.ios, r.seekQueue) && (Halted(r) || Live(c, r))
  {
    hide Multiple, NextData, BdevConfig;
    assert i !in s.seekQueue;
    Elsewhere(s.ios, s.seekQueue, i, r.ios[i]);
  }

  /** A context joins the queue, and starts a seek if it is alone. */
  lemma JoinQueue(c: Config, s: State, i: nat, seekRc: int)
    requires ValidConfig(c) && c.mode.SparseBdev? && s.exits == []
    requires Held(c, s, i) && QueueShape(s.ios, s.seekQueue) && Live(c, s)
    ensures var r := SeekBdev(s, i, seekRc);
      QueueShape(r.ios, r.seekQueue) && Accounted(c, r) && (Halted(r) || Live(c, r))
  {
    hide Multiple, RoundUp, Sum, Sub64, NextHole, NextData, GoodIos;
    var r := SeekBdev(s, i, seekRc);
    Enqueue(s.ios, s.seekQueue, i, r.ios[i]);
    HeldIsGood(c, s, i);
    if s.seekQueue != [] {
      QueuedKeeps(c, s, i, s.seekQueue + [i]);
    } else if seekRc == 0 {
      SubmitKeeps(c, s, i, SeekingData);
      RequeueKeeps(c, Submit(s, i, SeekingData), [i]);
    } else {
      QueuedKeeps(c, s, i, [i]);
      FailKeeps(c, SetIo(s, i, s.ios[i].(stage := Queued, done := {})).(seekQueue := [i]), seekRc);
    }
  }

  lemma QueuedKeeps(c: Config, s: State, i: nat, q: seq<nat>)
    requires Held(c, s, i) && c.mode.SparseBdev?
    ensures Accounted(c, SetIo(s, i, s.ios[i].(stage := Queued, done := {})).(seekQueue := q))
  {
    hide Multiple, RoundUp, Sub64, NextHole, NextData;
    SumUpdates(s.ios, i, s.ios[i].(stage := Queued, done := {}));
  }

  /** A context looks for work in the middle of a callback or of the launch. */
  lemma SeekOrdered(c: Config, s: State, i: nat, env: Env)
    requires Ordered(c, s) && i < |s.ios| && s.ios[i].stage.Idle? && s.ios[i].done == {}
    requires !Halted(s) && s.exits != [] ==> Remaining(c, s) == 0
    ensures Ordered(c, TargetSeek(c, s, i, env))
  {
    hide Multiple, RoundUp, Ledger, Sum, InBlocks, Sub64, NextHole, NextData, PopulateBuffer, GoodIos, SeekBdev, SeekFile,
      QueueShape;
    SeekTallies(c, s, i, env);
    if !Halted(s) && Remaining(c, s) != 0 {
      JoinQueue(c, s, i, env.seekRc);
    } else {
      SameBounds(c, s, TargetSeek(c, s, i, env));
      if !Halted(s) { StopKeeps(c, s, true); }
    }
  }

  lemma SameBounds(c: Config, s: State, r: State)
    requires InBounds(c, s) && r.ios == s.ios && r.pos == s.pos && (Halted(s) ==> Halted(r))
    ensures InBounds(c, r)
  {
    hide Multiple, RoundUp;
  }

  /** The contexts and their count after a transfer. */
  lemma ParkOrdered(c: Config, s: State, i: nat, t: State)
    requires Ordered(c, s) && i < |s.ios| && InChain(s.ios[i])
    requires t == Park(s, i).(outstanding := s.outstanding - 1, error := t.error) && (Halted(s) ==> Halted(t))
    ensures InBounds(c, t) && Counted(t) && QueueShape(t.ios, t.seekQueue)
    ensures !Halted(s) ==> Held(c, t, i) && t.exits == [] && Ranged(c, t.ios[i])
    ensures !Halted(t) ==> Live(c, t)
  {
    hide Multiple, RoundUp, Ledger, InBlocks, Sub64, NextHole, NextData, GoodIos, Sum;
    ParkBounds(c, s, t, i);
    OrderedElsewhere(c, s, t, i);
    SumUpdate(Flying, s.ios, i, t.ios[i]);
    if !Halted(s) {
      ParkKeeps(c, s, i, t.error);
      ParkedIsRanged(c, s, i);
    }
  }

  lemma WrittenDone(c: Config, s: State, i: nat, t: State, env: Env)
    requires Ordered(c, s) && i < |s.ios| && s.ios[i].stage.Writing?
    requires t == Park(s, i).(outstanding := s.outstanding - 1, error := t.error) && (Halted(s) ==> Halted(t))
    ensures c.inStart <= t.pos && c.outBs > 0 && Ordered(c, TargetSeek(c, t, i, env))
  {
    hide Multiple, RoundUp, Sum, InBlocks, Sub64, NextHole, NextData, GoodIos, QueueShape, TargetSeek, Live, Tiled, CountWanted,
      Contained;
    ParkOrdered(c, s, i, t);
    SumUpdate(Pending, s.ios, i, t.ios[i]);
    SameTiles(c, s, t);
    SeekOrdered(c, t, i, env);
  }

  lemma TransferDone(c: Config, s: State, i: nat, flagged: bool, env: Env)
    requires Ordered(c, s) && i < |s.ios| && InChain(s.ios[i])
    ensures Ordered(c, DdModel.Complete(c, s, i, flagged, env))
  {
    hide Multiple, RoundUp, Ledger, Sum, InBlocks, Sub64, NextHole, NextData, GoodIos, QueueShape, TargetSeek, Live, Measure;
    CompleteTallies(c, s, i, flagged, env);
    var t := Park(s, i).(outstanding := s.outstanding - 1, error := if flagged then -ENOSPC else s.error);
    if s.ios[i].stage.Writing? {
      WrittenDone(c, s, i, t, env);
    } else {
      ParkOrdered(c, s, i, t);
      var r := DdModel.Complete(c, s, i, flagged, env);
      OrderedElsewhere(c, t, r, i);
      if !Halted(s) {
        if s.ios[i].stage.Populating? { ReadKeeps(c, t, i, env.rc); } else { WriteKeeps(c, t, i, env.rc); }
      } else {
        SameBounds(c, t, r);
      }
    }
  }

  lemma ParkedIsRanged(c: Config, s: State, i: nat)
    requires InBounds(c, s) && i < |s.ios| && InChain(s.ios[i])
    ensures Ranged(c, Park(s, i).ios[i])
  {
    hide Multiple, RoundUp;
  }

  lemma MoveOrdered(c: Config, s: State, i: nat, k: nat)
    requires Ordered(c, s) && i < |s.ios| && InChain(s.ios[i]) && Movable(c, s.ios[i], k) && k !in s.ios[i].done
    ensures c.inStart <= s.ios[i].offset && Ordered(c, Move(c, s, i, k))
  {
    hide Multiple, RoundUp, Contained, InBlocks, CountWanted, Tiled, NextData, NextHole, Measure;
    assert GoodIo(c, s.ios[i]);
    var r := Move(c, s, i, k);
    SumUpdates(s.ios, i, r.ios[i]);
    SameTiles(c, s, r);
    OrderedElsewhere(c, s, r, i);
    if !Halted(s) { MoveKeeps(c, s, i, k); }
  }

  // ------------------------------------------------------------ steps and runs

  lemma OrderedShape(c: Config, s: State)
    requires Ordered(c, s)
    ensures Shape(c, s)
  {
    hide Multiple, RoundUp, InBlocks, Ledger, Accounted, Live;
    forall i | 0 <= i < |s.ios| && InChain(s.ios[i]) ensures c.inStart <= s.ios[i].offset { assert GoodIo(c, s.ios[i]); }
    forall i | 0 <= i < |s.ios| && Seeking(s.ios[i]) ensures s.seekQueue != [] { assert i in s.seekQueue; }
  }

  /** Every step keeps the order of the queue, whatever it reports and whatever has
      failed before. */
  lemma StepOrdered(c: Config, s: State, e: Event)
    requires Ordered(c, s) && Shape(c, s) && Enabled(c, s, e)
    ensures var r := Step(c, s, e); Ordered(c, r) && |r.ios| == |s.ios|
  {
    hide Multiple, RoundUp, InBlocks, Ledger, DdModel.Complete, NextHole, NextData, GoodIos, Sum, QueueShape, Sub64,
      PopulateBuffer, SeekHoleDone, SeekDataDone;
    match e
    case Transfer(i, k) => MoveOrdered(c, s, i, k);
    case Completion(i, flagged, env) => TransferDone(c, s, i, flagged, env);
    case SeekDone(i, env) =>
      if Halted(s) { HaltedSeekDone(c, s, i, env); }
      else if s.ios[i].stage.SeekingHole? { HoleDone(c, s, i, env); }
      else if NextData(c.data, s.pos).None? { NoDataDone(c, s, i, env); }
      else { DataDone(c, s, i, env); }
    case Tick => SameBase(c, s, Progress(s)); SameLive(c, s, Progress(s));
    case Interrupt => SameBase(c, s, s.(interrupt := true));
  }

  lemma SameBase(c: Config, s: State, r: State)
    requires Base(c, s) && r.ios == s.ios && r.pos == s.pos && r.claims == s.claims
    requires (Halted(s) ==> Halted(r)) && (Halted(r) || r == Progress(s))
    ensures Base(c, r)
  {
    hide BdevConfig, Tiled;
    SameTiles(c, s, r);
  }

  lemma SameLive(c: Config, s: State, r: State)
    requires BdevConfig(c) && QueueShape(s.ios, s.seekQueue) && (!Halted(s) ==> Accounted(c, s) && Live(c, s))
    requires r == Progress(s)
    ensures !Halted(r) ==> Accounted(c, r) && Live(c, r)
  {
    hide Multiple, RoundUp, BdevConfig, Sum;
  }

  lemma SeekMovesForward(c: Config, s: State, i: nat, env: Env)
    requires BdevConfig(c) && Shape(c, s) && Enabled(c, s, SeekDone(i, env)) && Multiple(s.pos, c.inBs)
    ensures s.pos <= Step(c, s, SeekDone(i, env)).pos
  {
    hide Multiple, RoundUp, InBlocks, NextHole, NextData, Sub64, XferLen, PopulateBuffer;
    BlockStart(s.pos, c.inBs);
    SeekOnBlocks(c, s.pos);
    var next := NextData(c.data, s.pos);
    if next.Some? { BlockStart(next.value, c.inBs); }
  }

  /** The cursor never moves back. */
  lemma CursorNeverGoesBack(c: Config, s: State, e: Event)
    requires Ordered(c, s) && Shape(c, s) && Enabled(c, s, e)
    ensures s.pos <= Step(c, s, e).pos
  {
    hide Multiple, RoundUp, Ledger, NextHole, NextData, Sub64, Accounted, XferLen, TargetSeek, SeekHoleDone, BdevConfig, QueueShape;
    if e.SeekDone? {
      if Halted(s) { HaltedKeepsCursor(c, s, e.i, e.env); } else { SeekMovesForward(c, s, e.i, e.env); }
    }
  }

  lemma HaltedKeepsCursor(c: Config, s: State, i: nat, env: Env)
    requires Shape(c, s) && Enabled(c, s, SeekDone(i, env)) && Halted(s)
    ensures Step(c, s, SeekDone(i, env)).pos == s.pos
  {
    hide Multiple, RoundUp, NextHole, NextData, Sub64, XferLen, PopulateBuffer;
  }

  lemma {:induction false} RunOrdered(c: Config, s: State, events: seq<Event>)
    requires Ordered(c, s) && CanRun(c, s, events)
    ensures var r := Run(c, s, events); Ordered(c, r) && |r.ios| == |s.ios| && s.pos <= r.pos
    decreases |events|
  {
    hide Ordered, Step, Shape, Enabled;
    if events != [] {
      StepOrdered(c, s, events[0]);
      CursorNeverGoesBack(c, s, events[0]);
      RunOrdered(c, Step(c, s, events[0]), events[1..]);
    }
  }

  lemma InitOrdered(c: Config, s: State)
    requires BdevConfig(c) && Init(c, s)
    ensures Ordered(c, s)
  {
    InitLedger(c, s);
    FlyingBounds(s.ios);
  }

  /** Only the end of the region, an error or an interrupt makes the launch exit. */
  lemma SeekExits(c: Config, s: State, i: nat, env: Env)
    requires c.mode.SparseBdev? && i < |s.ios| && c.inStart <= s.pos && c.outBs > 0
    requires !Halted(s) && s.exits != [] ==> Remaining(c, s) == 0
    ensures var r := TargetSeek(c, s, i, env);
      && r.pos == s.pos && (!Halted(r) && r.exits != [] ==> Remaining(c, r) == 0)
      && forall j :: 0 <= j < |s.ios| && j != i ==> r.ios[j] == s.ios[j]
  {
    hide Sub64, PopulateBuffer, SeekFile;
  }

  lemma {:induction false} LaunchOrdered(c: Config, s: State, envs: seq<Env>, n: nat)
    requires BdevConfig(c) && Init(c, s) && n <= |s.ios| == |envs|
    ensures var r := Launch(c, s, envs, n);
      && Ordered(c, r) && r.pos == s.pos
      && (!Halted(r) && r.exits != [] ==> Remaining(c, r) == 0)
      && forall j :: n <= j < |s.ios| ==> r.ios[j] == s.ios[j]
  {
    hide Ordered, Multiple, RoundUp, InBlocks, TargetSeek, Sub64;
    if n == 0 {
      InitOrdered(c, s);
    } else {
      LaunchOrdered(c, s, envs, n - 1);
      var t := Launch(c, s, envs, n - 1);
      SeekExits(c, t, n - 1, envs[n - 1]);
      SeekOrdered(c, t, n - 1, envs[n - 1]);
    }
  }

  // ------------------------------------------------------------- every run

  ghost predicate BdevRun(c: Config, s: State, envs: seq<Env>, events: seq<Event>) {
    && BdevConfig(c) && Init(c, s) && |envs| == |s.ios|
    && CanRun(c, Launch(c, s, envs, |s.ios|), events)
  }

  ghost function BdevOutcome(c: Config, s: State, envs: seq<Env>, events: seq<Event>): State
    requires BdevRun(c, s, envs, events)
  {
    Run(c, Launch(c, s, envs, |s.ios|), events)
  }

  lemma OutcomeOrdered(c: Config, s: State, envs: seq<Env>, events: seq<Event>)
    requires BdevRun(c, s, envs, events)
    ensures Ordered(c, BdevOutcome(c, s, envs, events))
  {
    hide Ordered, Multiple, InBlocks, Launch, CanRun;
    LaunchOrdered(c, s, envs, |s.ios|);
    RunOrdered(c, Launch(c, s, envs, |s.ios|), events);
  }

  /** The seek queue in every reachable state, whatever failed and whatever the
      transfers did: at most one seek is in flight and it is the head's, the queue holds
      each waiting context once and none of the copy chain, the chunks taken so far are
      disjoint and leave out only holes, and everything in flight is counted, exactly
      until the first error or interrupt. */
  lemma SeekQueueProtocol(c: Config, s: State, envs: seq<Env>, events: seq<Event>)
    requires BdevRun(c, s, envs, events)
    ensures var r := BdevOutcome(c, s, envs, events);
      && (forall i :: 0 <= i < |r.ios| && Seeking(r.ios[i]) ==> r.seekQueue != [] && r.seekQueue[0] == i)
      && (forall i :: 0 <= i < |r.ios| ==> (i in r.seekQueue <==> Waiting(r.ios[i])))
      && (forall j, k :: 0 <= j < k < |r.seekQueue| ==> r.seekQueue[j] != r.seekQueue[k])
      && Shape(c, r) && Tiled(c, r)
      && r.outstanding >= Sum(Flying, r.ios)
      && (!Halted(r) ==> r.outstanding == Sum(Flying, r.ios))
  {
    hide BdevRun, BdevOutcome, BdevConfig, Tallied, Tiled, Live, Sum, GoodIos, Shape;
    OutcomeOrdered(c, s, envs, events);
    var r := BdevOutcome(c, s, envs, events);
    OrderedShape(c, r);
    forall i | 0 <= i < |r.ios| && Seeking(r.ios[i]) ensures r.seekQueue != [] && r.seekQueue[0] == i {
      SeekerIsHead(r.ios, r.seekQueue, i);
    }
  }

  /** The assertion `outstanding > 0` of the completion callbacks, also after errors. */
  lemma OrderedPositive(c: Config, s: State, i: nat)
    requires Ordered(c, s) && i < |s.ios| && InFlight(s.ios[i])
    ensures s.outstanding > 0
  {
    hide Base, Live, Sum, QueueShape, GoodIos;
    FlyingBounds(s.ios);
  }

  // ------------------------------------------- runs whose transfers really happen

  /** A finished seek after which the contexts, but for their place in the queue, and
      the output are the same. */
  lemma SeekCopiesNothing(c: Config, o: seq<Byte>, s: State, r: State, i: nat)
    requires Copying(c, o, s, NONE) && c.mode.SparseBdev? && i < |s.ios| == |r.ios| && r.ios == s.ios[i := r.ios[i]]
    requires !InChain(s.ios[i]) && !InChain(r.ios[i]) && r.ios[i].buf == s.ios[i].buf && r.ios[i].length == s.ios[i].length
    requires r.pos == s.pos && r.output == s.output && (Halted(s) ==> Halted(r))
    ensures Copying(c, o, r, NONE)
  {
    hide Multiple, RoundUp, Buffered, Safe, Sized, DdCopy.Complete, GoodClaim, Disjoint;
    assert GoodIo(c, s.ios[i]);
    ReplaceCopies(c, o, s, r, i);
  }

  lemma CopyingIsPlaced(c: Config, o: seq<Byte>, s: State)
    requires Copying(c, o, s, NONE)
    ensures Placed(c, s, NONE)
  {
  }

  lemma HaltedSeekCopies(c: Config, o: seq<Byte>, s: State, i: nat, env: Env)
    requires Copying(c, o, s, NONE) && c.mode.SparseBdev? && Halted(s)
    requires Shape(c, s) && Enabled(c, s, SeekDone(i, env))
    ensures Copying(c, o, Step(c, s, SeekDone(i, env)), NONE)
  {
    hide Multiple, RoundUp, Sub64, NextHole, NextData, PopulateBuffer, XferLen, Copying;
    SeekCopiesNothing(c, o, s, Step(c, s, SeekDone(i, env)), i);
  }

  lemma DataSeekCopies(c: Config, o: seq<Byte>, s: State, i: nat, env: Env)
    requires Copying(c, o, s, NONE) && Copyable(c) && BdevConfig(c) && !Halted(s) && Multiple(s.pos, c.inBs)
    requires i < |s.ios| && s.ios[i].stage.SeekingData? && s.seekQueue != []
    ensures Copying(c, o, SeekDataDone(c, s, i, env), NONE)
  {
    hide Multiple, RoundUp, NextData, Copying, Contained, Aligned, InBlocks, FinalizeOutput, BlocksFit;
    BlockStart(s.pos, c.inBs);
    CopyingIsPlaced(c, o, s);
    hide Placed;
    var t := Park(s, i).(outstanding := s.outstanding - 1);
    var next := NextData(c.data, s.pos);
    SeekCopiesNothing(c, o, s, t, i);
    if next.None? {
      var u := t.(seekQueue := s.seekQueue[1..]);
      SameCopies(c, o, t, u, NONE);
      FinalizeCopies(c, o, u, env.endErr);
    } else {
      SeekOnBlocks(c, s.pos);
      BlockStart(next.value, c.inBs);
      CopyingIsPlaced(c, o, t);
      DataInRegion(c, t);
      SkipCopies(c, o, t, next.value);
      SeekCopiesNothing(c, o, t.(pos := next.value), SeekDataDone(c, s, i, env), i);
    }
  }

  lemma HoleSeekCopies(c: Config, o: seq<Byte>, s: State, i: nat, env: Env)
    requires Copying(c, o, s, NONE) && Copyable(c) && Ordered(c, s) && Shape(c, s) && !Halted(s)
    requires i < |s.ios| && s.ios[i].stage.SeekingHole? && s.seekQueue != []
    ensures Copying(c, o, SeekHoleDone(c, s, i, env), NONE)
  {
    hide Multiple, RoundUp, Copying, Ledger, Sum, GoodIos, InBlocks, Sub64, NextHole, PopulateBuffer, StartNextSeek, XferLen,
      ChunkLength, Contained, Aligned, BlocksFit, Placed, Accounted;
    BlockStart(s.pos, c.inBs);
    SeekerIsHead(s.ios, s.seekQueue, i);
    LeaveQueue(c, s, i);
    var t := Park(s, i).(outstanding := s.outstanding - 1, seekQueue := s.seekQueue[1..]);
    SeekCopiesNothing(c, o, s, t, i);
    PosInRegion(c, o, s);
    var n := HoleLength(c, s.pos);
    ChunkCopies(c, o, t, i, n, env.rc);
    HoleChunk(c, t, i, n, env.rc);
    var p := PopulateBuffer(c, WithLength(t, i, n), i, env.rc);
    StartNextCopies(c, o, p, env.seekRc);
    assert WithLength(Park(s, i), i, n).(outstanding := s.outstanding - 1, seekQueue := s.seekQueue[1..]) == WithLength(t, i, n);
  }

  lemma StartNextCopies(c: Config, o: seq<Byte>, s: State, seekRc: int)
    requires Copying(c, o, s, NONE) && c.mode.SparseBdev? && QueueShape(s.ios, s.seekQueue)
    ensures Copying(c, o, StartNextSeek(c, s, seekRc), NONE)
  {
    hide Copying;
    if s.seekQueue != [] { SeekCopiesNothing(c, o, s, StartNextSeek(c, s, seekRc), s.seekQueue[0]); }
  }

  lemma PosInRegion(c: Config, o: seq<Byte>, s: State)
    requires Copying(c, o, s, NONE) && c.mode.SparseBdev? && DataAt(c, s.pos)
    ensures c.inStart <= s.pos < End(c) && Multiple(s.pos - c.inStart, c.outBs)
  {
    hide Multiple, RoundUp, GoodClaim, GoodIos;
  }

  /** Every step whose completed transfer really happened keeps the copy invariant. */
  lemma BdevStepCopies(c: Config, o: seq<Byte>, s: State, e: Event)
    requires Copying(c, o, s, NONE) && Copyable(c) && Ordered(c, s)
    requires Shape(c, s) && Enabled(c, s, e) && Faithful(c, s, e)
    ensures Copying(c, o, Step(c, s, e), NONE)
  {
    hide Multiple, RoundUp, InBlocks, Ledger, DdModel.Complete, NextHole, NextData, Sum, QueueShape, Sub64, Copying, Finished,
      PopulateBuffer, SeekHoleDone, SeekDataDone, Contained, Aligned, BlocksFit, XferLen;
    match e
    case Transfer(i, k) => MoveCopies(c, o, s, i, k);
    case Completion(i, flagged, env) => CompleteCopies(c, o, s, i, flagged, env);
    case SeekDone(i, env) =>
      if Halted(s) { HaltedSeekCopies(c, o, s, i, env); }
      else if s.ios[i].stage.SeekingHole? { HoleSeekCopies(c, o, s, i, env); }
      else { DataSeekCopies(c, o, s, i, env); }
    case Tick => SameCopies(c, o, s, Progress(s), NONE);
    case Interrupt => SameCopies(c, o, s, s.(interrupt := true), NONE);
  }

  lemma {:induction false} BdevRunCopies(c: Config, o: seq<Byte>, s: State, events: seq<Event>)
    requires Copying(c, o, s, NONE) && Copyable(c) && Ordered(c, s) && CanRun(c, s, events) && FaithfulRun(c, s, events)
    ensures Copying(c, o, Run(c, s, events), NONE)
    decreases |events|
  {
    hide Ordered, Copying, Copyable, Step, Shape, Enabled, Faithful;
    if events != [] {
      StepOrdered(c, s, events[0]);
      BdevStepCopies(c, o, s, events[0]);
      BdevRunCopies(c, o, Step(c, s, events[0]), events[1..]);
    }
  }

  lemma {:induction false} BdevLaunchCopies(c: Config, s: State, envs: seq<Env>, n: nat)
    requires Copyable(c) && BdevConfig(c) && Init(c, s) && n <= |s.ios| == |envs|
    ensures Copying(c, s.output, Launch(c, s, envs, n), NONE)
  {
    hide Ordered, Multiple, RoundUp, InBlocks, TargetSeek, Sub64, Copying, Contained, Aligned, BlocksFit;
    if n == 0 {
      InitCopies(c, s);
    } else {
      BdevLaunchCopies(c, s, envs, n - 1);
      LaunchOrdered(c, s, envs, n - 1);
      SeekCopies(c, s.output, Launch(c, s, envs, n - 1), n - 1, envs[n - 1]);
    }
  }

  lemma BdevOutcomeCopies(c: Config, s: State, envs: seq<Env>, events: seq<Event>)
    requires Copyable(c) && BdevRun(c, s, envs, events)
    requires FaithfulRun(c, Launch(c, s, envs, |s.ios|), events)
    ensures Copying(c, s.output, BdevOutcome(c, s, envs, events), NONE)
  {
    hide Ordered, Copyable, Copying, Multiple, InBlocks, Launch, CanRun, FaithfulRun;
    LaunchOrdered(c, s, envs, |s.ios|);
    BdevLaunchCopies(c, s, envs, |s.ios|);
    BdevRunCopies(c, s.output, Launch(c, s, envs, |s.ios|), events);
  }

  /** A sparse copy from a bdev that ended without error, and whose transfers really
      happened, has copied the data, left the holes and the rest of the output alone,
      and counted the bytes it copied. */
  lemma BdevCopyIsCorrect(c: Config, s: State, envs: seq<Env>, events: seq<Event>)
    requires Copyable(c) && BdevRun(c, s, envs, events)
    requires FaithfulRun(c, Launch(c, s, envs, |s.ios|), events)
    requires var r := BdevOutcome(c, s, envs, events); r.exits != [] && !Halted(r)
    ensures var r := BdevOutcome(c, s, envs, events);
      && OutsideKept(c, s.output, r.output)
      && (forall k: nat :: k < c.copySize ==>
            OutByte(c, r.output, k) == if DataAt(c, c.inStart + k) then InByte(c, k) else OutByte(c, s.output, k))
      && r.totalBytes == CountWanted(c, End(c))
  {
    hide BdevRun, BdevOutcome, Copying, Ledger, Live, Accounted, OutByte, InByte, OutsideKept, Contained, Aligned, InBlocks,
      QueueShape, CountWanted, Placed, FaithfulRun, BlocksFit;
    BdevOutcomeCopies(c, s, envs, events);
    BdevTotalIsExact(c, s, envs, events);
    OutcomeOrdered(c, s, envs, events);
    var o, r := s.output, BdevOutcome(c, s, envs, events);
    forall k: nat | k < c.copySize
      ensures OutByte(c, r.output, k) == if DataAt(c, c.inStart + k) then InByte(c, k) else OutByte(c, o, k)
    {
      ExitSettles(c, o, r, k);
    }
    OutsideIsKept(c, o, r);
  }

  lemma OutsideIsKept(c: Config, o: seq<Byte>, s: State)
    requires Copying(c, o, s, NONE)
    ensures OutsideKept(c, o, s.output)
  {
    hide RoundUp, Multiple, Placed, Buffered, DdCopy.Complete;
  }

  /** The total of a sparse copy from a bdev that ended without error is the number of
      data bytes in the region. */
  lemma BdevTotalIsExact(c: Config, s: State, envs: seq<Env>, events: seq<Event>)
    requires BdevRun(c, s, envs, events)
    requires var r := BdevOutcome(c, s, envs, events); r.exits != [] && !Halted(r)
    ensures BdevOutcome(c, s, envs, events).totalBytes == CountWanted(c, End(c))
  {
    hide BdevRun, BdevOutcome, Ledger, Live, Accounted, QueueShape, CountWanted, InBlocks;
    OutcomeOrdered(c, s, envs, events);
    var r := BdevOutcome(c, s, envs, events);
    PosInInput(c, r);
    ExitTotal(c, r);
  }

  lemma PosInInput(c: Config, s: State)
    requires Base(c, s)
    ensures s.pos <= End(c)
  {
    hide Ledger, GoodIos, InBlocks;
  }
}
