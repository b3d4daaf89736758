/** The `spdk_dd` copy engine as a state machine: the job, its I/O contexts and
    the two targets, with one function per callback of the source. Everything the
    program does not decide (which transfer the device performs next, which
    completion arrives, what a submission or a seek returns) is in the events. */
module DdModel {
  import opened Arith
  import opened ByteOrder

  /** How `dd_target_seek` finds the next chunk: without seeking, with `lseek` on
      an input file, or with asynchronous bdev seeks. */
  datatype Mode = Dense | SparseFile | SparseBdev

  /** What `dd_run` has settled before the first `dd_target_seek`. */
  datatype Config = Config(
    unit: nat,            // io_unit_size
    inStart: nat,         // input_offset * io_unit_size
    outStart: nat,        // output_offset * io_unit_size
    copySize: nat,
    inBs: nat,            // block size of the input
    outBs: nat,           // block size of the output
    mode: Mode,
    toFile: bool,         // output_file != NULL
    input: seq<Byte>,
    data: seq<bool>)      // data[p]: byte p of the input is not in a hole

  datatype Stage = Idle | Populating | Reading | Writing | Queued | SeekingData | SeekingHole

  /** `struct dd_io`. `stage` is the operation in flight for the context and
      `done` the bytes of it that the device has already moved. */
  datatype Io = Io(offset: nat, length: nat, stage: Stage, buf: seq<Byte>, done: set<nat>)

  datatype Claim = Claim(offset: nat, length: nat)

  /** `g_job`, `g_error` and `g_interrupt`. `exits` lists the status of each
      `dd_exit` call and `claims` each range taken from the input cursor. */
  datatype State = State(
    pos: nat,
    outstanding: int,
    error: int,
    interrupt: bool,
    incBytes: nat,
    totalBytes: nat,
    exits: seq<int>,
    ios: seq<Io>,
    seekQueue: seq<nat>,
    output: seq<Byte>,
    claims: seq<Claim>)

  /** What the environment answers during one callback: the result of submitting
      a transfer, of submitting a bdev seek, and the errno of the `SEEK_DATA`,
      `SEEK_HOLE` and end-of-output calls (0 when they succeed). */
  datatype Env = Env(rc: int, seekRc: int, dataErr: int, holeErr: int, endErr: int)

  const ENOSPC := 28

  // ---------------------------------------------------------------- bytes

  /** The byte at `p`, with bytes past the end reading as zero. */
  function ByteAt(s: seq<Byte>, p: nat): Byte {
    if p < |s| then s[p] else 0
  }

  function Extend(s: seq<Byte>, n: nat): (r: seq<Byte>)
    ensures |r| == Max(|s|, n)
    ensures forall p: nat :: ByteAt(r, p) == ByteAt(s, p)
  {
    if |s| < n then s + seq(n - |s|, _ => 0) else s
  }

  /** One byte of a write; a write past the end of a file extends it with zeros. */
  function Put(s: seq<Byte>, at: nat, b: Byte): (r: seq<Byte>)
    ensures |r| == Max(|s|, at + 1)
    ensures forall p: nat :: ByteAt(r, p) == if p == at then b else ByteAt(s, p)
  {
    Extend(s, at + 1)[at := b]
  }

  // ------------------------------------------------------------- seek oracles

  datatype Option = None | Some(value: nat)

  /** `SEEK_DATA`: the first data byte at or after `p`, if there is one. */
  function NextData(data: seq<bool>, p: nat): (r: Option)
    ensures r.Some? ==> p <= r.value < |data| && data[r.value]
    ensures r.Some? ==> forall q :: p <= q < r.value ==> !data[q]
    ensures r.None? ==> forall q :: p <= q < |data| ==> !data[q]
    decreases |data| - p
  {
    if p >= |data| then None
    else if data[p] then Some(p)
    else NextData(data, p + 1)
  }

  /** `SEEK_HOLE`: the first hole byte at or after `p`; the end of the input
      counts as a hole. */
  function NextHole(data: seq<bool>, p: nat): (r: nat)
    requires p <= |data|
    ensures p <= r <= |data|
    ensures forall q :: p <= q < r ==> data[q]
    ensures r < |data| ==> !data[r]
    decreases |data| - p
  {
    if p < |data| && data[p] then NextHole(data, p + 1) else p
  }

  // ------------------------------------------------------------- configuration

  function Start(c: Config): nat { c.inStart }

  function End(c: Config): nat { c.inStart + c.copySize }

  predicate DataAt(c: Config, q: nat) {
    q < |c.data| && c.data[q]
  }

  /** Whether input byte `q` has to be copied: all of them, or the data only. */
  predicate Wanted(c: Config, q: nat) {
    c.mode.Dense? || DataAt(c, q)
  }

  function OutPos(c: Config, q: nat): nat
    requires c.inStart <= q
  {
    c.outStart + (q - c.inStart)
  }

  /** The region fits the input. */
  ghost predicate ValidConfig(c: Config) {
    && 0 < c.unit < TWO64
    && 0 < c.outBs
    && End(c) <= |c.input| < TWO64
    && |c.data| == |c.input|
    && (c.mode.SparseBdev? ==> End(c) == |c.input| && 0 < c.inBs)
  }

  /** No output transfer of a copy is longer than its buffer: whole output blocks fill
      the buffer, or the whole copy is shorter and fits even when rounded up. */
  predicate BlocksFit(c: Config)
    requires c.outBs > 0
  {
    Multiple(c.unit, c.outBs) || (c.copySize < c.unit && RoundUp(c.copySize, c.outBs) <= c.unit)
  }

  /** When holes are skipped, data starts and ends on output blocks. */
  ghost predicate Aligned(c: Config)
    requires c.outBs > 0
  {
    c.mode.Dense? ||
    forall p :: c.inStart < p < |c.data| && c.data[p] != c.data[p - 1] ==> Multiple(p - c.inStart, c.outBs)
  }

  /** The data map of a bdev is made of whole blocks. */
  ghost predicate InBlocks(c: Config)
    requires c.inBs > 0
  {
    && Multiple(c.inStart, c.inBs) && Multiple(|c.data|, c.inBs) && Multiple(c.unit, c.inBs)
    && forall p :: 0 < p < |c.data| && c.data[p] != c.data[p - 1] ==> Multiple(p, c.inBs)
  }

  /** No data seek can carry the cursor over the end of the region: the region ends
      with data, or data goes on right after it, or none follows. */
  ghost predicate Contained(c: Config)
    requires ValidConfig(c)
  {
    c.mode.Dense? || c.copySize == 0 || c.data[End(c) - 1] || DataAt(c, End(c)) || NextData(c.data, End(c)).None?
  }

  // ---------------------------------------------------------------- contexts

  predicate InChain(io: Io) {
    io.stage.Populating? || io.stage.Reading? || io.stage.Writing?
  }

  predicate Seeking(io: Io) {
    io.stage.SeekingData? || io.stage.SeekingHole?
  }

  predicate InFlight(io: Io) {
    InChain(io) || Seeking(io)
  }

  /** Length of the transfer in flight: reads of the input are exact, transfers to
      and from the output are rounded up to whole blocks. */
  function XferLen(c: Config, io: Io): nat
    requires c.outBs > 0
  {
    if io.stage.Reading? then io.length else RoundUp(io.length, c.outBs)
  }

  predicate Halted(s: State) {
    s.error != 0 || s.interrupt
  }

  function Remaining(c: Config, s: State): nat
    requires c.inStart <= s.pos
  {
    Sub64(c.copySize, s.pos - c.inStart)
  }

  // ------------------------------------------------------------ the callbacks

  function SetIo(s: State, i: nat, io: Io): State
    requires i < |s.ios|
  {
    s.(ios := s.ios[i := io])
  }

  /** The operation of context `i` has completed. */
  function Park(s: State, i: nat): State
    requires i < |s.ios|
  {
    SetIo(s, i, s.ios[i].(stage := Idle, done := {}))
  }

  /** An accepted submission. */
  function Submit(s: State, i: nat, stage: Stage): State
    requires i < |s.ios|
  {
    SetIo(s, i, s.ios[i].(stage := stage, done := {})).(outstanding := s.outstanding + 1)
  }

  function Exit(s: State, rc: int): State {
    s.(exits := s.exits + [rc])
  }

  /** The counters of `dd_show_progress`. */
  function Progress(s: State): State {
    s.(totalBytes := s.totalBytes + s.incBytes, incBytes := 0)
  }

  /** The end of a context's life: the last one out calls `dd_exit`. */
  function Stop(s: State, show: bool): State {
    if s.outstanding != 0 then s
    else Exit(if show && s.error == 0 then Progress(s) else s, s.error)
  }

  /** A refused submission. */
  function Fail(s: State, rc: int): State {
    var t := s.(error := rc);
    if t.outstanding == 0 then Exit(t, rc) else t
  }

  /** A failed `lseek`, which is only noticed when nothing is in flight. */
  function SeekFail(s: State, errno: int): State {
    if s.outstanding == 0 then Exit(s.(error := errno), errno) else s
  }

  function TargetRead(s: State, i: nat, rc: int): State
    requires i < |s.ios|
  {
    if Halted(s) then Stop(s, false)
    else if rc != 0 then Fail(s, rc)
    else Submit(s, i, Reading)
  }

  function TargetWrite(s: State, i: nat, rc: int): State
    requires i < |s.ios|
  {
    if Halted(s) then Stop(s, true)
    else
      var t := s.(incBytes := s.incBytes + s.ios[i].length);
      if rc != 0 then Fail(t, rc) else Submit(t, i, Writing)
  }

  /** Context `i` set to the range it is about to take from the cursor. */
  function Aim(c: Config, s: State, i: nat): State
    requires i < |s.ios| && c.inStart <= s.pos
  {
    SetIo(s, i, s.ios[i].(offset := s.pos, length := Min(s.ios[i].length, Remaining(c, s))))
  }

  /** The cursor moved over the range of context `i`. */
  function Take(s: State, i: nat): State
    requires i < |s.ios|
  {
    var io := s.ios[i];
    s.(pos := s.pos + io.length, claims := s.claims + [Claim(io.offset, io.length)])
  }

  function PopulateBuffer(c: Config, s: State, i: nat, rc: int): (r: State)
    requires i < |s.ios| && c.inStart <= s.pos && c.outBs > 0
    ensures |r.ios| == |s.ios| && r.seekQueue == s.seekQueue && s.pos <= r.pos
  {
    var t := Aim(c, s, i);
    if t.ios[i].length == 0 || Halted(t) then Stop(t, true)
    else
      var u := Take(t, i);
      if Multiple(u.ios[i].length, c.outBs) then TargetRead(u, i, rc)
      else if rc != 0 then Fail(u, rc)
      else Submit(u, i, Populating)
  }

  /** `dd_finalize_output`: the last context out gives the file its full length. */
  function FinalizeOutput(c: Config, s: State, endErr: int): State {
    if s.outstanding > 0 then s
    else
      var t := if !c.toFile then s
               else if endErr != 0 then s.(error := endErr)
               else s.(output := Extend(s.output, c.copySize + c.outStart));
      var u := if t.error == 0 then Progress(t) else t;
      Exit(u, u.error)
  }

  function WithLength(s: State, i: nat, n: nat): State
    requires i < |s.ios|
  {
    SetIo(s, i, s.ios[i].(length := n))
  }

  /** The sparse branch of `dd_target_seek` for an input file. */
  function SeekFile(c: Config, s: State, i: nat, env: Env): State
    requires i < |s.ios| && c.inStart <= s.pos && c.outBs > 0
  {
    if env.dataErr != 0 then SeekFail(s, env.dataErr)
    else
      var next := NextData(c.data, s.pos);
      if next.None? then FinalizeOutput(c, s, env.endErr)
      else
        var t := s.(pos := Max(next.value, s.pos));
        if env.holeErr != 0 then SeekFail(t, env.holeErr)
        else
          var hole := NextHole(c.data, t.pos);
          var n := if hole > t.pos then Min(c.unit, hole - t.pos) else c.unit;
          PopulateBuffer(c, WithLength(t, i, n), i, env.rc)
  }

  /** The sparse branch of `dd_target_seek` for an input bdev. */
  function SeekBdev(s: State, i: nat, seekRc: int): State
    requires i < |s.ios|
  {
    if s.seekQueue != [] then
      SetIo(s, i, s.ios[i].(stage := Queued, done := {})).(seekQueue := s.seekQueue + [i])
    else if seekRc != 0 then
      // The context is queued although no seek is in flight for it.
      Fail(SetIo(s, i, s.ios[i].(stage := Queued, done := {})).(seekQueue := [i]), seekRc)
    else
      Submit(s, i, SeekingData).(seekQueue := [i])
  }

  function TargetSeek(c: Config, s: State, i: nat, env: Env): (r: State)
    requires i < |s.ios| && c.inStart <= s.pos && c.outBs > 0
    ensures s.pos <= r.pos && |r.ios| == |s.ios|
  {
    if c.mode.Dense? then PopulateBuffer(c, s, i, env.rc)
    else if Remaining(c, s) == 0 || Halted(s) then Stop(s, true)
    else if c.mode.SparseFile? then SeekFile(c, s, i, env)
    else SeekBdev(s, i, env.seekRc)
  }

  /** `dd_complete_poll` and the bdev completion callbacks of a transfer. The AIO
      poller first flags an unexpected transfer size. */
  function Complete(c: Config, s: State, i: nat, flagged: bool, env: Env): (r: State)
    requires i < |s.ios| && InChain(s.ios[i]) && c.inStart <= s.pos && c.outBs > 0
    ensures |r.ios| == |s.ios|
  {
    var t := Park(s, i).(outstanding := s.outstanding - 1, error := if flagged then -ENOSPC else s.error);
    match s.ios[i].stage
    case Populating => TargetRead(t, i, env.rc)
    case Reading => TargetWrite(t, i, env.rc)
    case _ => TargetSeek(c, t, i, env)
  }

  /** `_dd_bdev_seek_data_done`. */
  function SeekDataDone(c: Config, s: State, i: nat, env: Env): (r: State)
    requires i < |s.ios| && s.seekQueue != [] && c.inBs > 0
    ensures |r.ios| == |s.ios|
  {
    if Halted(s) then Stop(Park(s, i).(seekQueue := s.seekQueue[1..]), true)
    else
      var t := Park(s, i).(outstanding := s.outstanding - 1);
      var next := NextData(c.data, (s.pos / c.inBs) * c.inBs);
      if next.None? then FinalizeOutput(c, t.(seekQueue := s.seekQueue[1..]), env.endErr)
      else
        var u := t.(pos := (next.value / c.inBs) * c.inBs);
        if env.seekRc != 0 then Fail(u.(seekQueue := s.seekQueue[1..]), env.seekRc)
        else Submit(u, i, SeekingHole)
  }

  /** The head of the queue starts its data seek if input is left. */
  function StartNextSeek(c: Config, s: State, seekRc: int): (r: State)
    requires s.seekQueue != [] ==> s.seekQueue[0] < |s.ios|
    ensures |r.ios| == |s.ios|
  {
    if s.seekQueue == [] || s.pos >= |c.input| then s
    else if seekRc != 0 then Fail(s, seekRc)
    else Submit(s, s.seekQueue[0], SeekingData)
  }

  /** `_dd_bdev_seek_hole_done`. */
  function SeekHoleDone(c: Config, s: State, i: nat, env: Env): (r: State)
    requires i < |s.ios| && s.seekQueue != [] && c.inBs > 0 && c.outBs > 0
    requires c.inStart <= s.pos <= |c.data|
    requires |s.seekQueue| > 1 ==> s.seekQueue[1] < |s.ios|
    ensures |r.ios| == |s.ios|
  {
    var q := s.seekQueue[1..];
    if Halted(s) then Stop(Park(s, i).(seekQueue := q), true)
    else
      var hole := NextHole(c.data, (s.pos / c.inBs) * c.inBs);
      // Past the last hole the bdev answers UINT64_MAX.
      var n := if hole == |c.data| || hole < s.pos then c.unit else Min(c.unit, hole - s.pos);
      var t := WithLength(Park(s, i), i, n).(outstanding := s.outstanding - 1, seekQueue := q);
      StartNextSeek(c, PopulateBuffer(c, t, i, env.rc), env.seekRc)
  }

  // -------------------------------------------------------------------- runs

  datatype Event =
    | Transfer(i: nat, k: nat)                       // the device moves byte k
    | Completion(i: nat, flagged: bool, env: Env)
    | SeekDone(i: nat, env: Env)
    | Tick                                           // the status poller
    | Interrupt                                      // dd_finish

  /** A context after the device has moved byte `k` of its transfer... */
  function MoveIo(c: Config, out: seq<Byte>, io: Io, k: nat): Io
    requires c.inStart <= io.offset && k < |io.buf|
  {
    var moved := io.(done := io.done + {k});
    match io.stage
    case Populating => moved.(buf := io.buf[k := ByteAt(out, OutPos(c, io.offset) + k)])
    case Reading => moved.(buf := io.buf[k := ByteAt(c.input, io.offset + k)])
    case _ => moved
  }

  /** ... and the output after it. */
  function MoveOutput(c: Config, out: seq<Byte>, io: Io, k: nat): seq<Byte>
    requires c.inStart <= io.offset && k < |io.buf|
  {
    if io.stage.Writing? then Put(out, OutPos(c, io.offset) + k, io.buf[k]) else out
  }

  function Move(c: Config, s: State, i: nat, k: nat): State
    requires i < |s.ios| && c.inStart <= s.ios[i].offset && k < |s.ios[i].buf|
  {
    SetIo(s, i, MoveIo(c, s.output, s.ios[i], k)).(output := MoveOutput(c, s.output, s.ios[i], k))
  }

  /** The queue entries and positions that the callbacks rely on. */
  predicate Shape(c: Config, s: State) {
    && c.outBs > 0
    && c.inStart <= s.pos <= |c.data|
    && (forall i :: 0 <= i < |s.ios| && InChain(s.ios[i]) ==> c.inStart <= s.ios[i].offset)
    && (forall j :: 0 <= j < |s.seekQueue| ==> s.seekQueue[j] < |s.ios|)
    && (forall i :: 0 <= i < |s.ios| && Seeking(s.ios[i]) ==> s.seekQueue != [] && c.inBs > 0)
  }

  /** The bytes of a transfer that lie in the buffer of its context. What a transfer
      does beyond its buffer is undefined and not part of any run. */
  predicate Movable(c: Config, io: Io, k: nat)
    requires c.outBs > 0
  {
    k < XferLen(c, io) && k < |io.buf|
  }

  predicate Enabled(c: Config, s: State, e: Event)
    requires Shape(c, s)
  {
    match e
    case Transfer(i, k) => i < |s.ios| && InChain(s.ios[i]) && Movable(c, s.ios[i], k) && k !in s.ios[i].done
    case Completion(i, _, _) => i < |s.ios| && InChain(s.ios[i])
    case SeekDone(i, _) => i < |s.ios| && Seeking(s.ios[i])
    case Tick => true
    case Interrupt => true
  }

  function Step(c: Config, s: State, e: Event): State
    requires Shape(c, s) && Enabled(c, s, e)
  {
    match e
    case Transfer(i, k) => Move(c, s, i, k)
    case Completion(i, flagged, env) => Complete(c, s, i, flagged, env)
    case SeekDone(i, env) =>
      if s.ios[i].stage.SeekingData? then SeekDataDone(c, s, i, env) else SeekHoleDone(c, s, i, env)
    case Tick => Progress(s)
    case Interrupt => s.(interrupt := true)
  }

  /** The state `dd_run` starts the contexts from. */
  ghost predicate Init(c: Config, s: State) {
    && s.pos == c.inStart && s.outstanding == 0 && s.error == 0
    && s.incBytes == 0 && s.totalBytes == 0
    && s.exits == [] && s.seekQueue == [] && s.claims == []
    && forall i :: 0 <= i < |s.ios| ==>
         s.ios[i].stage.Idle? && s.ios[i].done == {} && s.ios[i].length == c.unit && |s.ios[i].buf| == c.unit
  }

  /** The loop at the end of `dd_run`, after its first `n` contexts. */
  function Launch(c: Config, s: State, envs: seq<Env>, n: nat): (r: State)
    requires n <= |s.ios| == |envs| && c.inStart <= s.pos && c.outBs > 0
    ensures s.pos <= r.pos && |r.ios| == |s.ios|
  {
    if n == 0 then s else TargetSeek(c, Launch(c, s, envs, n - 1), n - 1, envs[n - 1])
  }

  /** `events` can happen one after the other from `s`. */
  ghost predicate CanRun(c: Config, s: State, events: seq<Event>)
    decreases |events|
  {
    events == [] ||
    (Shape(c, s) && Enabled(c, s, events[0]) && CanRun(c, Step(c, s, events[0]), events[1..]))
  }

  ghost function Run(c: Config, s: State, events: seq<Event>): State
    requires CanRun(c, s, events)
    decreases |events|
  {
    if events == [] then s else Run(c, Step(c, s, events[0]), events[1..])
  }
}
