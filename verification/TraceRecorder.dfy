/** The trace recorder: it polls a circular buffer that a producer fills with a
    free-running counter and appends what is new to a file. Masked indices and split
    copies are proved to be a plain append of the next part of the history. */
module TraceRecorder {
  import opened Arith
  import opened ByteOrder

  const ENTRY_SIZE := 32

  /** A trace entry as it lies in memory; its first eight bytes are the time stamp. */
  type Entry = e: seq<Byte> | |e| == ENTRY_SIZE witness seq(ENTRY_SIZE, _ => 0)

  function Tsc(e: Entry): nat {
    LittleEndian(e[..8])
  }

  /** The time stamp is the first field of an entry. */
  lemma TscIsFirstField(tsc: nat, rest: seq<Byte>)
    requires tsc < TWO64 && |rest| == ENTRY_SIZE - 8
    ensures Tsc(Bytes(tsc, 8) + rest) == tsc
  {
    FieldCapacities();
    BytesRoundTrip(tsc, 8);
    assert (Bytes(tsc, 8) + rest)[..8] == Bytes(tsc, 8);
  }

  // --------------------------------------------------------------- the producer

  /** The circular buffer and the number of entries ever written to it. */
  datatype Ring = Ring(entries: seq<Entry>, next: nat)

  /** `_spdk_trace_record` for one entry. */
  function Produce(r: Ring, e: Entry): Ring
    requires |r.entries| > 0
  {
    Ring(r.entries[And(r.next, |r.entries| - 1) := e], r.next + 1)
  }

  /** The ring has 2^m slots and holds the last of them of history `h`. */
  ghost predicate Holds(r: Ring, m: nat, h: seq<Entry>) {
    && |r.entries| == Pow2(m) && r.next == |h|
    && forall k :: 0 <= k < |h| && |h| - Pow2(m) <= k ==> r.entries[Mod(k, Pow2(m))] == h[k]
  }

  lemma ModInjective(j: nat, k: nat, n: nat)
    requires n > 0 && j < k < j + n
    ensures Mod(j, n) != Mod(k, n)
  {
    if Mod(j, n) == Mod(k, n) {
      var a, b := j / n, k / n;
      assert k - j == (b - a) * n;
      if b <= a { MulMono(0, a - b, n); } else { MulMono(1, b - a, n); }
    }
  }

  /** The producer keeps the ring equal to the end of its history. */
  lemma ProduceHolds(r: Ring, m: nat, h: seq<Entry>, e: Entry)
    requires Holds(r, m, h)
    ensures Holds(Produce(r, e), m, h + [e])
  {
    var n := Pow2(m);
    AndMask(r.next, m);
    var r' := Produce(r, e);
    forall k | 0 <= k < |h| + 1 && |h| + 1 - n <= k ensures r'.entries[Mod(k, n)] == (h + [e])[k] {
      if k < |h| { ModInjective(k, |h|, n); }
    }
  }

  // --------------------------------------------------------------- the recorder

  /** The counters of an lcore port and the file it has written. */
  datatype Port = Port(recNext: nat, firstTsc: nat, lastTsc: nat, numEntries: nat, file: seq<Entry>)

  const FRESH := Port(0, 0, 0, 0, [])

  datatype Slices = Bad | Slices(first: seq<Entry>, second: seq<Entry>)

  function PaddingBackward(entries: seq<Entry>, start: nat, end: nat): Slices
    requires end <= |entries|
  {
    if end <= start then Bad else Slices(entries[start..end], [])
  }

  function PaddingAcross(entries: seq<Entry>, start: nat, end: nat): Slices
    requires start <= |entries|
  {
    if end > start then Bad else Slices(entries[start..], entries[..end])
  }

  function PaddingAll(entries: seq<Entry>, end: nat): Slices
    requires end <= |entries|
  {
    PaddingAcross(entries, end, end)
  }

  /** What `lcore_trace_record` copies, and how many entries it counts for it. */
  function Copied(p: Port, r: Ring): (res: (Slices, nat))
    requires |r.entries| > 0 && p.recNext < r.next
  {
    var n := |r.entries|;
    var cirNext := And(r.next, n - 1);
    if p.firstTsc == 0 then
      if r.next < n then (PaddingBackward(r.entries, 0, cirNext), cirNext)
      else (PaddingAll(r.entries, cirNext), n)
    else if r.next - p.recNext >= n then (PaddingAll(r.entries, cirNext), n)
    else
      var recCir := And(p.recNext, n - 1);
      if cirNext > recCir then (PaddingBackward(r.entries, recCir, cirNext), cirNext - recCir)
      else (PaddingAcross(r.entries, recCir, cirNext), n - recCir + cirNext)
  }

  /** The part of the history that a poll should append. */
  function Window(p: Port, n: nat, h: seq<Entry>): seq<Entry>
    requires p.recNext <= |h|
  {
    h[Max(p.recNext, |h| - n)..]
  }

  // -------------------------------------------------- slices of the ring and of the history

  /** Indices on the same lap of the ring. */
  lemma SameLap(a: nat, b: nat, n: nat)
    requires n > 0 && a <= b < a + n && Mod(a, n) <= Mod(b, n)
    ensures b - a == Mod(b, n) - Mod(a, n)
    ensures forall k {:trigger Mod(k, n)} :: a <= k < b ==> Mod(k, n) == Mod(a, n) + (k - a)
  {
    LapOffset(a, b - a, n);
    forall k | a <= k < b ensures Mod(k, n) == Mod(a, n) + (k - a) { LapOffset(a, k - a, n); }
  }

  lemma LapOffset(a: nat, d: nat, n: nat)
    requires n > 0 && d < n
    ensures Mod(a + d, n) == if Mod(a, n) + d < n then Mod(a, n) + d else Mod(a, n) + d - n
  {
    var q, r := a / n, Mod(a, n);
    assert a == q * n + r;
    if r + d < n {
      DivUnique(a + d, n, q, r + d);
    } else {
      assert a + d == (q + 1) * n + (r + d - n) by { assert (q + 1) * n == q * n + n; }
      DivUnique(a + d, n, q + 1, r + d - n);
    }
  }

  /** A part of the history of at most `n` entries that does not wrap around... */
  lemma BackwardIsHistory(r: Ring, m: nat, h: seq<Entry>, a: nat)
    requires Holds(r, m, h) && a < |h| < a + Pow2(m) && Mod(a, Pow2(m)) < Mod(|h|, Pow2(m))
    ensures r.entries[Mod(a, Pow2(m))..Mod(|h|, Pow2(m))] == h[a..]
  {
    var n := Pow2(m);
    SameLap(a, |h|, n);
    var s := r.entries[Mod(a, n)..Mod(|h|, n)];
    forall k | 0 <= k < |s| ensures s[k] == h[a..][k] {
      assert Mod(a + k, n) == Mod(a, n) + k;
    }
  }

  /** ... and one that does. */
  lemma AcrossIsHistory(r: Ring, m: nat, h: seq<Entry>, a: nat)
    requires Holds(r, m, h) && a < |h| <= a + Pow2(m) && Mod(|h|, Pow2(m)) <= Mod(a, Pow2(m))
    ensures r.entries[Mod(a, Pow2(m))..] + r.entries[..Mod(|h|, Pow2(m))] == h[a..]
  {
    var n := Pow2(m);
    if |h| < a + n { LapOffset(a, |h| - a, n); } else { ModLap(a, n); }
    var s := r.entries[Mod(a, n)..] + r.entries[..Mod(|h|, n)];
    assert |s| == |h| - a;
    forall k | 0 <= k < |s| ensures s[k] == h[a..][k] {
      LapOffset(a, k, n);
      assert r.entries[Mod(a + k, n)] == h[a + k];
    }
  }

  function Joined(s: Slices): seq<Entry> {
    if s.Bad? then [] else s.first + s.second
  }

  ghost predicate CopiesWindow(p: Port, r: Ring, m: nat, h: seq<Entry>)
    requires |r.entries| > 0 && p.recNext < r.next && p.recNext <= |h|
  {
    var c := Copied(p, r);
    c.0.Slices? && Joined(c.0) == Window(p, Pow2(m), h) && c.1 == |Joined(c.0)|
  }

  /** The whole ring, from the oldest entry around to the newest. */
  lemma AllCopied(p: Port, r: Ring, m: nat, h: seq<Entry>)
    requires Holds(r, m, h) && p.recNext < r.next && r.next >= Pow2(m)
    requires if p.firstTsc == 0 then p.recNext == 0 else r.next - p.recNext >= Pow2(m)
    ensures CopiesWindow(p, r, m, h)
  {
    hide And, Pow2, Mod;
    AndMask(r.next, m);
    ModLap(r.next - Pow2(m), Pow2(m));
    AcrossIsHistory(r, m, h, r.next - Pow2(m));
  }

  /** The first poll, before the ring is full. */
  lemma StartCopied(p: Port, r: Ring, m: nat, h: seq<Entry>)
    requires Holds(r, m, h) && p.recNext == 0 < r.next < Pow2(m) && p.firstTsc == 0
    ensures CopiesWindow(p, r, m, h)
  {
    hide And, Pow2, Mod;
    AndMask(r.next, m);
    ModSmall(0, Pow2(m));
    ModSmall(r.next, Pow2(m));
    BackwardIsHistory(r, m, h, 0);
  }

  /** A later poll that has not been lapped. */
  lemma PartCopied(p: Port, r: Ring, m: nat, h: seq<Entry>)
    requires Holds(r, m, h) && p.recNext < r.next < p.recNext + Pow2(m) && p.firstTsc != 0
    ensures CopiesWindow(p, r, m, h)
  {
    hide And, Pow2, Mod, Holds;
    assert r.next == |h| && |r.entries| == Pow2(m) by { RingSize(r, m, h); }
    AndMask(r.next, m);
    AndMask(p.recNext, m);
    if Mod(r.next, Pow2(m)) > Mod(p.recNext, Pow2(m)) {
      BackwardIsHistory(r, m, h, p.recNext);
    } else {
      AcrossIsHistory(r, m, h, p.recNext);
    }
  }

  /** A poll copies, in at most two slices, exactly the window of the history and
      counts it right. */
  lemma CopiedIsWindow(p: Port, r: Ring, m: nat, h: seq<Entry>)
    requires Holds(r, m, h) && p.recNext < r.next && (p.firstTsc != 0 || p.recNext == 0)
    ensures var c := Copied(p, r);
      c.0.Slices? && Joined(c.0) == Window(p, Pow2(m), h) && c.1 == |Joined(c.0)|
  {
    hide And, Pow2, Mod, Copied, Joined, Window, Holds;
    assert r.next == |h| && |r.entries| == Pow2(m) by { RingSize(r, m, h); }
    if p.firstTsc == 0 && r.next < Pow2(m) {
      StartCopied(p, r, m, h);
    } else if p.firstTsc == 0 || r.next - p.recNext >= Pow2(m) {
      AllCopied(p, r, m, h);
    } else {
      PartCopied(p, r, m, h);
    }
  }

  lemma RingSize(r: Ring, m: nat, h: seq<Entry>)
    requires Holds(r, m, h)
    ensures |r.entries| == Pow2(m) && r.next == |h|
  {
  }

  /** The recorder takes a zero time stamp for "nothing recorded yet". The copy is
      the window exactly when that is right, or when nothing recorded is left in the
      ring anyway. */
  lemma CopiedIsWindowIff(p: Port, r: Ring, m: nat, h: seq<Entry>)
    requires Holds(r, m, h) && p.recNext < r.next
    ensures Joined(Copied(p, r).0) == Window(p, Pow2(m), h) <==>
              p.firstTsc != 0 || p.recNext == 0 || r.next - p.recNext >= Pow2(m)
  {
    var n := Pow2(m);
    CopiedIsWindow(p.(recNext := 0, firstTsc := 0), r, m, h);
    if p.firstTsc != 0 || p.recNext == 0 {
      CopiedIsWindow(p, r, m, h);
    } else {
      assert Copied(p, r) == Copied(p.(recNext := 0), r);
      var all := Window(p.(recNext := 0, firstTsc := 0), n, h);
      assert Joined(Copied(p, r).0) == all;
      assert |all| == Min(|h|, n) && |Window(p, n, h)| == Min(|h| - p.recNext, n);
    }
  }

  // ------------------------------------------------------------------- one poll

  datatype Polled = Failed | Ok(port: Port)

  function LastEntryIdx(n: nat, cirNext: nat): nat
    requires cirNext < n
  {
    if cirNext == 0 then n - 1 else cirNext - 1
  }

  /** The oldest entry that is still in the ring. */
  function OldestIdx(r: Ring): nat
    requires |r.entries| > 0
  {
    if r.next < |r.entries| then 0 else And(r.next, |r.entries| - 1)
  }

  /** `lcore_trace_record` when all writes succeed. */
  function Poll(p: Port, r: Ring): Polled
    requires |r.entries| > 0
  {
    if r.next == p.recNext then Ok(p)
    else if r.next < p.recNext then Failed
    else
      var first := if p.firstTsc == 0 then Tsc(r.entries[OldestIdx(r)]) else p.firstTsc;
      var (slices, count) := Copied(p, r);
      if slices.Bad? then Failed
      else
        var last := Tsc(r.entries[LastEntryIdx(|r.entries|, And(r.next, |r.entries| - 1))]);
        Ok(Port(r.next, first, last, p.numEntries + count, p.file + Joined(slices)))
  }

  /** A counter that has gone back is an error, and nothing else is for a ring that holds
      the end of a history. */
  lemma PollFailsIff(p: Port, r: Ring, m: nat, h: seq<Entry>)
    requires Holds(r, m, h) && (p.firstTsc != 0 || p.recNext == 0)
    ensures Poll(p, r).Failed? <==> r.next < p.recNext
  {
    hide Pow2, And, Mod, Tsc, Copied;
    assert |r.entries| == Pow2(m) && r.next == |h| by { RingSize(r, m, h); }
    if p.recNext < r.next { CopiedIsWindow(p, r, m, h); }
  }

  /** What the counters of a port say about its file. */
  ghost predicate Consistent(p: Port) {
    && p.numEntries == |p.file|
    && (p.file == [] ==> p.firstTsc == 0 && p.recNext == 0)
    && (p.file != [] ==> p.firstTsc == Tsc(p.file[0]) != 0 && p.lastTsc == Tsc(p.file[|p.file| - 1]))
  }

  lemma PowerIsOneOrEven(m: nat)
    ensures if m == 0 then Pow2(m) == 1 else Pow2(m) >= 2
  {
  }

  /** The entry before the masked counter is the newest one of the history. */
  lemma LastIsNewest(r: Ring, m: nat, h: seq<Entry>)
    requires Holds(r, m, h) && |h| > 0
    ensures r.entries[LastEntryIdx(|r.entries|, And(r.next, |r.entries| - 1))] == h[|h| - 1]
  {
    hide Pow2, And, Mod;
    AndMask(|h|, m);
    PowerIsOneOrEven(m);
    if m > 0 {
      LapOffset(|h| - 1, 1, Pow2(m));
    }
    assert r.entries[Mod(|h| - 1, Pow2(m))] == h[|h| - 1];
  }

  lemma OldestIsFirst(r: Ring, m: nat, h: seq<Entry>)
    requires Holds(r, m, h) && |h| > 0
    ensures r.entries[OldestIdx(r)] == h[Max(0, |h| - Pow2(m))]
  {
    hide Pow2, And, Mod;
    AndMask(|h|, m);
    if |h| < Pow2(m) { ModSmall(0, Pow2(m)); } else { ModLap(|h| - Pow2(m), Pow2(m)); }
    var k := Max(0, |h| - Pow2(m));
    assert r.entries[Mod(k, Pow2(m))] == h[k];
  }

  /** Every time stamp of the history is nonzero: the producer replaces zero by the tick
      count of the moment. */
  ghost predicate Stamped(h: seq<Entry>) {
    forall k :: 0 <= k < |h| ==> Tsc(h[k]) != 0
  }

  /** A poll appends the window and keeps the counters in step with the file. */
  lemma PollAppends(p: Port, r: Ring, m: nat, h: seq<Entry>)
    requires Holds(r, m, h) && Stamped(h) && Consistent(p) && p.recNext <= |h|
    ensures Poll(p, r).Ok?
    ensures var q := Poll(p, r).port;
      && q.file == p.file + Window(p, Pow2(m), h) && q.recNext == |h| && Consistent(q)
  {
    hide Pow2, And, Mod, Tsc, Copied, Joined;
    assert |r.entries| == Pow2(m) && r.next == |h| by { RingSize(r, m, h); }
    if p.recNext < |h| {
      CopiedIsWindow(p, r, m, h);
      LastIsNewest(r, m, h);
      OldestIsFirst(r, m, h);
      var w := Window(p, Pow2(m), h);
      assert |w| > 0 && w[|w| - 1] == h[|h| - 1];
      assert w[0] == h[Max(p.recNext, |h| - Pow2(m))];
    } else {
      assert Window(p, Pow2(m), h) == [];
    }
  }

  // ----------------------------------------------------------------- whole runs

  function RunPolls(p: Port, polls: seq<Ring>): Polled
    requires forall t :: 0 <= t < |polls| ==> |polls[t].entries| > 0
    decreases |polls|
  {
    if polls == [] then Ok(p)
    else
      var before := RunPolls(p, polls[..|polls| - 1]);
      if before.Failed? then Failed else Poll(before.port, polls[|polls| - 1])
  }

  /** The polls see the ring of a producer whose history grows to `h`. */
  ghost predicate Observes(polls: seq<Ring>, m: nat, h: seq<Entry>) {
    && (forall t :: 0 <= t < |polls| ==> polls[t].next <= |h| && Holds(polls[t], m, h[..polls[t].next]))
    && (forall t, u :: 0 <= t < u < |polls| ==> polls[t].next <= polls[u].next)
  }

  function Last(polls: seq<Ring>): nat {
    if polls == [] then 0 else polls[|polls| - 1].next
  }

  function Range(a: nat, b: nat): seq<nat> {
    seq(if a <= b then b - a else 0, i requires 0 <= i => a + i)
  }

  /** The history indices that a run records. */
  function Recorded(n: nat, polls: seq<Ring>): seq<nat>
    decreases |polls|
  {
    if polls == [] then []
    else
      var before := polls[..|polls| - 1];
      Recorded(n, before) + Range(Max(Last(before), Last(polls) - n), Last(polls))
  }

  /** The entries that a run misses because the producer laps the recorder. */
  function Missed(n: nat, polls: seq<Ring>): nat
    decreases |polls|
  {
    if polls == [] then 0
    else
      var before := polls[..|polls| - 1];
      Missed(n, before) + Max(0, Last(polls) - Last(before) - n)
  }

  ghost predicate Picks(file: seq<Entry>, h: seq<Entry>, idx: seq<nat>) {
    |file| == |idx| && forall j :: 0 <= j < |file| ==> idx[j] < |h| && file[j] == h[idx[j]]
  }

  /** The indices increase strictly and, with the missed ones, make up everything up
      to the last poll. */
  lemma {:induction false} RecordedInOrder(n: nat, polls: seq<Ring>)
    requires forall t, u :: 0 <= t < u < |polls| ==> polls[t].next <= polls[u].next
    ensures var idx := Recorded(n, polls);
      && (forall j, k :: 0 <= j < k < |idx| ==> idx[j] < idx[k])
      && (forall j :: 0 <= j < |idx| ==> idx[j] < Last(polls))
      && |idx| + Missed(n, polls) == Last(polls)
    decreases |polls|
  {
    if polls != [] { RecordedInOrder(n, polls[..|polls| - 1]); }
  }

  lemma RangeJoin(a: nat, b: nat)
    requires a <= b
    ensures Range(0, a) + Range(a, b) == Range(0, b)
  {
  }

  /** How far the producer has come since the poll before. */
  function Gain(polls: seq<Ring>, t: nat): int
    requires t < |polls|
  {
    polls[t].next - if t == 0 then 0 else polls[t - 1].next
  }

  /** A recorder that is never lapped records everything. */
  lemma {:induction false} RecordedContiguous(n: nat, polls: seq<Ring>)
    requires forall t, u :: 0 <= t < u < |polls| ==> polls[t].next <= polls[u].next
    requires forall t :: 0 <= t < |polls| ==> Gain(polls, t) <= n
    ensures Recorded(n, polls) == Range(0, Last(polls))
    decreases |polls|
  {
    hide Missed;
    if polls != [] {
      var before := polls[..|polls| - 1];
      assert forall t :: 0 <= t < |before| ==> Gain(before, t) == Gain(polls, t);
      RecordedContiguous(n, before);
      assert Gain(polls, |polls| - 1) == Last(polls) - Last(before);
      RangeJoin(Last(before), Last(polls));
    }
  }

  /** Recorder refinement and conservation, for every run of polls over every growing
      history: the file is the recorded part of the history, in order and without
      duplicates; the counter is its length; with the missed entries it makes up the
      last counter seen; and the time stamps are those of its ends. */
  lemma {:induction false} RunRecords(polls: seq<Ring>, m: nat, h: seq<Entry>)
    requires Observes(polls, m, h) && Stamped(h)
    ensures RunPolls(FRESH, polls).Ok?
    ensures var p := RunPolls(FRESH, polls).port;
      && Picks(p.file, h, Recorded(Pow2(m), polls))
      && p.numEntries + Missed(Pow2(m), polls) == p.recNext == Last(polls)
      && Consistent(p)
    decreases |polls|
  {
    hide Pow2, Poll, Stamped, Window, Tsc, Holds, Range, Missed, Picks;
    RingsNonempty(polls, m, h);
    RecordedInOrder(Pow2(m), polls);
    if polls == [] {
      assert Picks([], h, []) by { PicksNothing(h); }
    } else {
      var before, r := polls[..|polls| - 1], polls[|polls| - 1];
      RunRecords(before, m, h);
      var p := RunPolls(FRESH, before).port;
      PrefixStamped(h, r.next);
      PollAppends(p, r, m, h[..r.next]);
      WindowPicks(p, Pow2(m), h, r.next);
      PicksAppend(p.file, Window(p, Pow2(m), h[..r.next]), h, Recorded(Pow2(m), before),
                  Range(Max(p.recNext, r.next - Pow2(m)), r.next));
    }
    PicksLength(RunPolls(FRESH, polls).port.file, h, Recorded(Pow2(m), polls));
  }

  lemma RingsNonempty(polls: seq<Ring>, m: nat, h: seq<Entry>)
    requires Observes(polls, m, h)
    ensures forall t :: 0 <= t < |polls| ==> |polls[t].entries| > 0
  {
  }

  lemma PicksNothing(h: seq<Entry>)
    ensures Picks([], h, [])
  {
  }

  lemma PicksLength(f: seq<Entry>, h: seq<Entry>, a: seq<nat>)
    requires Picks(f, h, a)
    ensures |f| == |a|
  {
  }

  lemma PicksAppend(f: seq<Entry>, g: seq<Entry>, h: seq<Entry>, a: seq<nat>, b: seq<nat>)
    requires Picks(f, h, a) && Picks(g, h, b)
    ensures Picks(f + g, h, a + b)
  {
  }

  lemma PrefixStamped(h: seq<Entry>, n: nat)
    requires Stamped(h) && n <= |h|
    ensures Stamped(h[..n])
  {
  }

  lemma WindowPicks(p: Port, n: nat, h: seq<Entry>, next: nat)
    requires p.recNext <= next <= |h|
    ensures Picks(Window(p, n, h[..next]), h, Range(Max(p.recNext, next - n), next))
  {
  }

  /** A recorder that keeps up leaves a file that is the history itself. */
  lemma KeepingUpRecordsAll(polls: seq<Ring>, m: nat, h: seq<Entry>)
    requires Observes(polls, m, h) && Stamped(h)
    requires forall t :: 0 <= t < |polls| ==> Gain(polls, t) <= Pow2(m)
    ensures RunPolls(FRESH, polls).Ok? && RunPolls(FRESH, polls).port.file == h[..Last(polls)]
  {
    RunRecords(polls, m, h);
    RecordedContiguous(Pow2(m), polls);
  }

  /** A zero time stamp, which only a tick count of zero can bring about: two polls of a
      ring of two slots record the same entry twice. */
  lemma ZeroStampRecordsTwice(e: Entry, f: Entry)
    requires Tsc(e) == 0
    ensures var polls := [Ring([e, e], 1), Ring([e, f], 2)];
      && Observes(polls, 1, [e, f])
      && RunPolls(FRESH, polls).Ok? && RunPolls(FRESH, polls).port.file == [e, e, f]
  {
    hide Tsc, Poll;
    var first, second := Ring([e, e], 1), Ring([e, f], 2);
    var p := Port(1, 0, Tsc(e), 1, [e]);
    assert Pow2(1) == 2;
    assert [e, f][..1] == [e] && [e, f][..2] == [e, f];
    FirstPollOfTwo(e);
    SecondPollOfTwo(e, f, p);
    assert [first, second][..1] == [first] && [first][..0] == [];
    assert RunPolls(FRESH, [first]) == Ok(p);
  }

  lemma FirstPollOfTwo(e: Entry)
    requires Tsc(e) == 0
    ensures Poll(FRESH, Ring([e, e], 1)) == Ok(Port(1, 0, Tsc(e), 1, [e]))
  {
    hide Tsc;
    assert And(1, 1) == 1;
    assert [e, e][0..1] == [e];
  }

  lemma SecondPollOfTwo(e: Entry, f: Entry, p: Port)
    requires p == Port(1, 0, Tsc(e), 1, [e])
    ensures Poll(p, Ring([e, f], 2)).Ok? && Poll(p, Ring([e, f], 2)).port.file == [e, e, f]
  {
    hide Tsc;
    assert And(2, 1) == 0;
    assert [e] + [e, f] == [e, e, f];
  }

  // -------------------------------------------------------- the recorder in place

  /** An lcore port that polls its ring. A poll makes at most two writes; `broken`
      says which of them fails, 0 for none. */
  class LcoreRecorder {
    var recNext: nat
    var firstTsc: nat
    var lastTsc: nat
    var numEntries: nat
    var file: seq<Entry>

    ghost function View(): Port
      reads this
    {
      Port(recNext, firstTsc, lastTsc, numEntries, file)
    }

    constructor ()
      ensures View() == FRESH
    {
      recNext, firstTsc, lastTsc, numEntries, file := 0, 0, 0, 0, [];
    }

    /** The one or two writes of the padding functions. */
    method Append(s: Slices, broken: nat) returns (rc: int)
      modifies this`file
      ensures rc == 0 ==> !s.Bad? && file == old(file) + Joined(s)
      ensures rc != 0 ==> file == old(file) || (!s.Bad? && file == old(file) + s.first)
      ensures broken == 0 && !s.Bad? ==> rc == 0
    {
      if s.Bad? || broken == 1 { return -1; }
      file := file + s.first;
      if s.second == [] { return 0; }
      if broken == 2 { return -1; }
      file := file + s.second;
      return 0;
    }

    /** The branches of `lcore_trace_record` that choose and copy the new entries. */
    method CopyNew(r: Ring, broken: nat) returns (rc: int)
      requires |r.entries| > 0 && recNext < r.next
      modifies this
      ensures recNext == old(recNext) && lastTsc == old(lastTsc)
      ensures firstTsc == if old(firstTsc) == 0 then Tsc(r.entries[OldestIdx(r)]) else old(firstTsc)
      ensures numEntries == old(numEntries) + Copied(old(View()), r).1
      ensures rc == 0 ==> Copied(old(View()), r).0.Slices? && file == old(file) + Joined(Copied(old(View()), r).0)
      ensures rc != 0 ==>
                var slices := Copied(old(View()), r).0;
                file == old(file) || (slices.Slices? && file == old(file) + slices.first)
      ensures broken == 0 && Copied(old(View()), r).0.Slices? ==> rc == 0
    {
      hide And, Tsc, Joined;
      var n := |r.entries|;
      var cirNext := And(r.next, n - 1);
      if firstTsc == 0 {
        if r.next < n {
          firstTsc := Tsc(r.entries[0]);
          numEntries := numEntries + cirNext;
          rc := Append(PaddingBackward(r.entries, 0, cirNext), broken);
        } else {
          firstTsc := Tsc(r.entries[cirNext]);
          numEntries := numEntries + n;
          rc := Append(PaddingAll(r.entries, cirNext), broken);
        }
      } else if r.next - recNext >= n {
        numEntries := numEntries + n;
        rc := Append(PaddingAll(r.entries, cirNext), broken);
      } else {
        var recCir := And(recNext, n - 1);
        if cirNext > recCir {
          numEntries := numEntries + (cirNext - recCir);
          rc := Append(PaddingBackward(r.entries, recCir, cirNext), broken);
        } else {
          numEntries := numEntries + (n - recCir + cirNext);
          rc := Append(PaddingAcross(r.entries, recCir, cirNext), broken);
        }
      }
    }

    /** `lcore_trace_record`. */
    method Record(r: Ring, broken: nat) returns (rc: int)
      requires |r.entries| > 0
      modifies this
      ensures rc == 0 ==> Poll(old(View()), r) == Ok(View())
      ensures r.next < old(recNext) ==> rc == -1
      ensures rc != 0 && r.next <= old(recNext) ==> View() == old(View())
      ensures rc != 0 && r.next > old(recNext) ==>
                var p, (slices, count) := old(View()), Copied(old(View()), r);
                && recNext == p.recNext && lastTsc == p.lastTsc && numEntries == p.numEntries + count
                && firstTsc == (if p.firstTsc == 0 then Tsc(r.entries[OldestIdx(r)]) else p.firstTsc)
                && (file == p.file || (slices.Slices? && file == p.file + slices.first))
      ensures broken == 0 ==> (rc == 0 <==> Poll(old(View()), r).Ok?)
    {
      hide And, Tsc, Joined, Copied;
      if r.next == recNext { return 0; }
      if r.next < recNext { return -1; }
      rc := CopyNew(r, broken);
      if rc != 0 { return; }
      lastTsc := Tsc(r.entries[LastEntryIdx(|r.entries|, And(r.next, |r.entries| - 1))]);
      recNext := r.next;
    }
  }
}
