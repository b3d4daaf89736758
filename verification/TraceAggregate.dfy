/** `trace_files_aggregate`: the per-lcore files are laid out behind one header that
    holds their offsets. Reading the result back through those offsets gives every
    lcore its own history. */
module TraceAggregate {
  import opened Arith
  import opened ByteOrder
  import opened TraceRecorder

  // Sizes of the structures in spdk/include/spdk/trace.h.
  const MAX_LCORE := 1024
  const HEADER_SIZE := 269000           // struct spdk_trace_file
  const HISTORY_SIZE := 10264           // struct spdk_trace_history without entries
  const NUM_ENTRIES_AT := 8             // offset of num_entries in a history
  const META_SIZE := HEADER_SIZE - 8 * MAX_LCORE - 16
  const OFFSETS_AT := 8 + META_SIZE
  const OWNER_OFFSET_AT := OFFSETS_AT + 8 * MAX_LCORE
  const COPY_SIZE := 32 * 1024          // TRACE_FILE_COPY_SIZE

  /** A port at the end of the recording: `history` is its `out_history`, `file` the
      bytes of its lcore file. */
  datatype Lcore = Lcore(valid: bool, numEntries: nat, history: seq<Byte>, file: seq<Byte>)

  function U64(x: nat): (r: seq<Byte>)
    ensures |r| == 8
  {
    Bytes(x, 8)
  }

  lemma U64RoundTrip(x: nat)
    requires x < TWO64
    ensures LittleEndian(U64(x)) == x
  {
    FieldCapacities();
    BytesRoundTrip(x, 8);
  }

  // ------------------------------------------------------------------ the layout

  function HistorySize(numEntries: nat): nat {
    HISTORY_SIZE + numEntries * ENTRY_SIZE
  }

  /** Where the history of lcore `i` starts, if it has one. */
  function Offset(ports: seq<Lcore>, i: nat): nat
    requires i <= |ports|
  {
    if i == 0 then HEADER_SIZE
    else Offset(ports, i - 1) + if ports[i - 1].valid then HistorySize(ports[i - 1].numEntries) else 0
  }

  /** What the header records for lcore `i`. */
  function RecordedOffset(ports: seq<Lcore>, i: nat): nat
    requires i < |ports|
  {
    if ports[i].valid then Offset(ports, i) else 0
  }

  function OffsetTable(ports: seq<Lcore>, n: nat): (r: seq<Byte>)
    requires n <= |ports|
    ensures |r| == 8 * n
  {
    if n == 0 then [] else OffsetTable(ports, n - 1) + U64(RecordedOffset(ports, n - 1))
  }

  /** The stored history header, with the number of entries of the file. */
  function HistoryHeader(p: Lcore): (r: seq<Byte>)
    requires |p.history| == HISTORY_SIZE
    ensures |r| == HISTORY_SIZE
  {
    p.history[..NUM_ENTRIES_AT] + U64(p.numEntries) + p.history[NUM_ENTRIES_AT + 8..]
  }

  /** Every valid lcore has a history buffer; the others have none. */
  ghost predicate Buffered(ports: seq<Lcore>) {
    && |ports| == MAX_LCORE
    && forall i :: 0 <= i < |ports| && ports[i].valid ==> |ports[i].history| == HISTORY_SIZE
  }

  ghost predicate ValidPorts(ports: seq<Lcore>) {
    && Buffered(ports)
    && forall i :: 0 <= i < |ports| && ports[i].valid ==> |ports[i].file| == ports[i].numEntries * ENTRY_SIZE
  }

  function Histories(ports: seq<Lcore>, n: nat): seq<Byte>
    requires n <= |ports| && forall i :: 0 <= i < n && ports[i].valid ==> |ports[i].history| == HISTORY_SIZE
  {
    if n == 0 then []
    else Histories(ports, n - 1) + if ports[n - 1].valid then HistoryHeader(ports[n - 1]) + ports[n - 1].file else []
  }

  /** The converged trace file. */
  ghost function Layout(ports: seq<Lcore>, meta: seq<Byte>, owners: seq<Byte>): seq<Byte>
    requires Buffered(ports)
  {
    var end := Offset(ports, MAX_LCORE);
    U64(end + |owners|) + meta + OffsetTable(ports, MAX_LCORE) + U64(end) + Histories(ports, MAX_LCORE) + owners
  }

  /** The chunked copy of one lcore file. */
  method CopyFile(out: seq<Byte>, file: seq<Byte>) returns (r: seq<Byte>, lenSum: nat)
    ensures r == out + file && lenSum == |file|
  {
    r, lenSum := out, 0;
    while lenSum < |file|
      invariant lenSum <= |file| && r == out + file[..lenSum]
    {
      var len := Min(COPY_SIZE, |file| - lenSum);
      r := r + file[lenSum..lenSum + len];
      assert file[..lenSum] + file[lenSum..lenSum + len] == file[..lenSum + len];
      lenSum := lenSum + len;
    }
    assert file[..lenSum] == file;
  }

  method Aggregate(ports: seq<Lcore>, meta: seq<Byte>, owners: seq<Byte>) returns (out: seq<Byte>)
    requires Buffered(ports)
    ensures out == Layout(ports, meta, owners)
  {
    var current := HEADER_SIZE;
    var offsets := [];
    for i := 0 to MAX_LCORE
      invariant current == Offset(ports, i)
      invariant |offsets| == i && forall j :: 0 <= j < i ==> offsets[j] == RecordedOffset(ports, j)
    {
      if ports[i].valid {
        offsets := offsets + [current];
        current := current + HistorySize(ports[i].numEntries);
      } else {
        offsets := offsets + [0];
      }
    }
    var ownerOffset := current;
    current := current + |owners|;
    out := U64(current) + meta;
    ghost var head := out;
    for i := 0 to MAX_LCORE
      invariant out == head + OffsetTable(ports, i)
    {
      out := out + U64(offsets[i]);
    }
    out := out + U64(ownerOffset);
    head := out;
    for i := 0 to MAX_LCORE
      invariant out == head + Histories(ports, i)
    {
      if ports[i].valid {
        out := out + HistoryHeader(ports[i]);
        var lenSum;
        out, lenSum := CopyFile(out, ports[i].file);
      }
    }
    out := out + owners;
  }

  // ----------------------------------------------------------------- reading back

  function ReadU64(out: seq<Byte>, at: nat): nat
    requires at + 8 <= |out|
  {
    LittleEndian(out[at..at + 8])
  }

  /** Entries as the recorder appends them to an lcore file. */
  function Pack(es: seq<Entry>): (r: seq<Byte>)
    ensures |r| == |es| * ENTRY_SIZE
  {
    if es == [] then [] else Pack(es[..|es| - 1]) + es[|es| - 1]
  }

  function Unpack(s: seq<Byte>, n: nat): seq<Entry>
    requires |s| == n * ENTRY_SIZE
  {
    if n == 0 then [] else Unpack(s[..(n - 1) * ENTRY_SIZE], n - 1) + [s[(n - 1) * ENTRY_SIZE..]]
  }

  lemma {:induction false} UnpackPack(es: seq<Entry>)
    ensures Unpack(Pack(es), |es|) == es
  {
    if es != [] {
      var n := |es|;
      UnpackPack(es[..n - 1]);
      assert Pack(es)[..(n - 1) * ENTRY_SIZE] == Pack(es[..n - 1]);
      assert Pack(es)[(n - 1) * ENTRY_SIZE..] == es[n - 1];
    }
  }

  datatype History = NoHistory | Unreadable | History(entries: seq<Entry>)

  /** The history of lcore `i` as a reader of the file finds it, by
      `spdk_get_per_lcore_history` and the entry count of the history. */
  function ReadHistory(out: seq<Byte>, i: nat): History
    requires i < MAX_LCORE && HEADER_SIZE <= |out|
  {
    var at := ReadU64(out, OFFSETS_AT + 8 * i);
    if at == 0 then NoHistory
    else if at + HISTORY_SIZE > |out| then Unreadable
    else
      var n := ReadU64(out, at + NUM_ENTRIES_AT);
      if at + HistorySize(n) > |out| then Unreadable
      else History(Unpack(out[at + HISTORY_SIZE..at + HistorySize(n)], n))
  }

  lemma {:induction false} OffsetTableAt(ports: seq<Lcore>, n: nat, i: nat)
    requires i < n <= |ports|
    ensures OffsetTable(ports, n)[8 * i..8 * i + 8] == U64(RecordedOffset(ports, i))
  {
    var t := OffsetTable(ports, n);
    if i < n - 1 {
      OffsetTableAt(ports, n - 1, i);
      assert t[..8 * (n - 1)] == OffsetTable(ports, n - 1);
      assert t[8 * i..8 * i + 8] == t[..8 * (n - 1)][8 * i..8 * i + 8];
    }
  }

  /** The histories before lcore `n` fill the file exactly up to its offset. */
  lemma {:induction false} HistoriesEnd(ports: seq<Lcore>, n: nat)
    requires ValidPorts(ports) && n <= |ports|
    ensures HEADER_SIZE + |Histories(ports, n)| == Offset(ports, n)
  {
    if n > 0 { HistoriesEnd(ports, n - 1); }
  }

  lemma {:induction false} OffsetMonotone(ports: seq<Lcore>, i: nat, n: nat)
    requires i <= n <= |ports|
    ensures HEADER_SIZE <= Offset(ports, i) <= Offset(ports, n)
    decreases n
  {
    if i < n { OffsetMonotone(ports, i, n - 1); }
    else if i > 0 { OffsetMonotone(ports, i - 1, i - 1); }
  }

  /** The bytes of lcore `i` in the histories. */
  lemma {:induction false} HistoriesAt(ports: seq<Lcore>, n: nat, i: nat)
    requires ValidPorts(ports) && i < n <= |ports| && ports[i].valid
    ensures var a := Offset(ports, i) - HEADER_SIZE;
      var b := a + HistorySize(ports[i].numEntries);
      0 <= a && b <= |Histories(ports, n)| && Histories(ports, n)[a..b] == HistoryHeader(ports[i]) + ports[i].file
  {
    HistoriesEnd(ports, n);
    HistoriesEnd(ports, n - 1);
    HistoriesEnd(ports, i);
    var a := Offset(ports, i) - HEADER_SIZE;
    var b := a + HistorySize(ports[i].numEntries);
    if i < n - 1 {
      HistoriesAt(ports, n - 1, i);
      var h := Histories(ports, n - 1);
      assert Histories(ports, n)[..|h|] == h;
      assert Histories(ports, n)[a..b] == Histories(ports, n)[..|h|][a..b];
    }
  }

  /** The recorded numbers fit their fields. */
  ghost predicate Fits(ports: seq<Lcore>, owners: seq<Byte>) {
    && ValidPorts(ports) && Offset(ports, MAX_LCORE) + |owners| < TWO64
  }

  /** The header has its size, the recorded sizes are the real ones, and the owner data
      starts at its recorded offset. */
  lemma LayoutOfFile(ports: seq<Lcore>, meta: seq<Byte>, owners: seq<Byte>)
    requires Fits(ports, owners) && |meta| == META_SIZE
    ensures var out := Layout(ports, meta, owners);
      var ownerOffset := Offset(ports, MAX_LCORE);
      && |out| == ownerOffset + |owners|
      && ReadU64(out, 0) == |out|
      && out[8..OFFSETS_AT] == meta
      && out[OFFSETS_AT..OWNER_OFFSET_AT] == OffsetTable(ports, MAX_LCORE)
      && ReadU64(out, OWNER_OFFSET_AT) == ownerOffset
      && out[HEADER_SIZE..ownerOffset] == Histories(ports, MAX_LCORE)
      && out[ownerOffset..] == owners
  {
    hide OffsetTable, Histories, U64, LittleEndian;
    HistoriesEnd(ports, MAX_LCORE);
    var end := Offset(ports, MAX_LCORE);
    U64RoundTrip(end);
    U64RoundTrip(end + |owners|);
    var out := Layout(ports, meta, owners);
    assert out[0..8] == U64(end + |owners|);
    assert out[OWNER_OFFSET_AT..OWNER_OFFSET_AT + 8] == U64(end);
  }

  /** The entry count in a stored history header. */
  lemma HeaderCount(p: Lcore)
    requires |p.history| == HISTORY_SIZE && p.numEntries < TWO64
    ensures LittleEndian(HistoryHeader(p)[NUM_ENTRIES_AT..NUM_ENTRIES_AT + 8]) == p.numEntries
  {
    U64RoundTrip(p.numEntries);
    assert HistoryHeader(p)[NUM_ENTRIES_AT..NUM_ENTRIES_AT + 8] == U64(p.numEntries);
  }

  /** The offset of lcore `i` as a reader finds it in the header. */
  lemma OffsetReads(ports: seq<Lcore>, meta: seq<Byte>, owners: seq<Byte>, i: nat)
    requires Fits(ports, owners) && |meta| == META_SIZE && i < MAX_LCORE
    ensures HEADER_SIZE <= |Layout(ports, meta, owners)|
    ensures ReadU64(Layout(ports, meta, owners), OFFSETS_AT + 8 * i) == RecordedOffset(ports, i)
  {
    hide OffsetTable, Histories, U64, LittleEndian, Layout, Offset;
    LayoutOfFile(ports, meta, owners);
    OffsetMonotone(ports, i, MAX_LCORE);
    OffsetTableAt(ports, MAX_LCORE, i);
    SliceOfSlice(Layout(ports, meta, owners), OFFSETS_AT, OWNER_OFFSET_AT, 8 * i, 8 * i + 8);
    U64RoundTrip(RecordedOffset(ports, i));
  }

  /** Aggregate round trip: reading the file back through its offsets gives no history
      for an lcore that is not traced, and for every other one exactly the entries of its
      lcore file. */
  lemma AggregateRoundTrip(ports: seq<Lcore>, meta: seq<Byte>, owners: seq<Byte>, i: nat, es: seq<Entry>)
    requires Fits(ports, owners) && |meta| == META_SIZE
    requires i < MAX_LCORE && (ports[i].valid ==> ports[i].file == Pack(es) && ports[i].numEntries == |es|)
    ensures HEADER_SIZE <= |Layout(ports, meta, owners)|
    ensures ReadHistory(Layout(ports, meta, owners), i) == if ports[i].valid then History(es) else NoHistory
  {
    hide OffsetTable, Histories, U64, LittleEndian, Layout, HistoryHeader, Unpack, Pack, Offset, ReadU64;
    OffsetReads(ports, meta, owners, i);
    if ports[i].valid {
      LayoutOfFile(ports, meta, owners);
      OffsetMonotone(ports, i, MAX_LCORE);
      HistoriesAt(ports, MAX_LCORE, i);
      HistoriesEnd(ports, MAX_LCORE);
      HistoryReads(ports[i], Layout(ports, meta, owners), Offset(ports, i), Offset(ports, MAX_LCORE), es);
    }
  }

  /** At its offset every traced lcore finds its own history header, unchanged but for the
      number of entries, and behind it the bytes of its lcore file. */
  lemma HeaderIsKept(ports: seq<Lcore>, meta: seq<Byte>, owners: seq<Byte>, i: nat)
    requires Fits(ports, owners) && |meta| == META_SIZE && i < MAX_LCORE && ports[i].valid
    ensures HEADER_SIZE <= |Layout(ports, meta, owners)|
    ensures var out := Layout(ports, meta, owners);
      var at := ReadU64(out, OFFSETS_AT + 8 * i);
      && at + HistorySize(ports[i].numEntries) <= |out|
      && out[at..at + NUM_ENTRIES_AT] == ports[i].history[..NUM_ENTRIES_AT]
      && ReadU64(out, at + NUM_ENTRIES_AT) == ports[i].numEntries
      && out[at + NUM_ENTRIES_AT + 8..at + HISTORY_SIZE] == ports[i].history[NUM_ENTRIES_AT + 8..]
      && out[at + HISTORY_SIZE..at + HistorySize(ports[i].numEntries)] == ports[i].file
  {
    hide OffsetTable, Histories, U64, LittleEndian, Layout, HistoryHeader, Offset;
    OffsetReads(ports, meta, owners, i);
    LayoutOfFile(ports, meta, owners);
    OffsetMonotone(ports, i, MAX_LCORE);
    HistoriesAt(ports, MAX_LCORE, i);
    HistoriesEnd(ports, MAX_LCORE);
    var out, at, end := Layout(ports, meta, owners), Offset(ports, i), Offset(ports, MAX_LCORE);
    SliceOfSlice(out, HEADER_SIZE, end, at - HEADER_SIZE, at - HEADER_SIZE + HistorySize(ports[i].numEntries));
    HeaderFields(ports[i], out, at);
  }

  lemma HeaderFields(p: Lcore, out: seq<Byte>, at: nat)
    requires |p.history| == HISTORY_SIZE && |p.file| == p.numEntries * ENTRY_SIZE && p.numEntries < TWO64
    requires at + HistorySize(p.numEntries) <= |out| && out[at..at + HistorySize(p.numEntries)] == HistoryHeader(p) + p.file
    ensures out[at..at + NUM_ENTRIES_AT] == p.history[..NUM_ENTRIES_AT]
    ensures ReadU64(out, at + NUM_ENTRIES_AT) == p.numEntries
    ensures out[at + NUM_ENTRIES_AT + 8..at + HISTORY_SIZE] == p.history[NUM_ENTRIES_AT + 8..]
    ensures out[at + HISTORY_SIZE..at + HistorySize(p.numEntries)] == p.file
  {
    hide U64, LittleEndian;
    var end := at + HistorySize(p.numEntries);
    var whole := out[at..end];
    SliceOfSlice(out, at, end, 0, NUM_ENTRIES_AT);
    SliceOfSlice(out, at, end, NUM_ENTRIES_AT, NUM_ENTRIES_AT + 8);
    SliceOfSlice(out, at, end, NUM_ENTRIES_AT + 8, HISTORY_SIZE);
    SliceOfSlice(out, at, end, HISTORY_SIZE, HistorySize(p.numEntries));
    assert whole[..HISTORY_SIZE] == HistoryHeader(p);
    assert whole[0..NUM_ENTRIES_AT] == p.history[..NUM_ENTRIES_AT];
    assert whole[NUM_ENTRIES_AT..NUM_ENTRIES_AT + 8] == U64(p.numEntries);
    assert whole[NUM_ENTRIES_AT + 8..HISTORY_SIZE] == p.history[NUM_ENTRIES_AT + 8..];
    U64RoundTrip(p.numEntries);
  }

  lemma HistoryReads(p: Lcore, out: seq<Byte>, at: nat, end: nat, es: seq<Entry>)
    requires |p.history| == HISTORY_SIZE && p.file == Pack(es) && p.numEntries == |es|
    requires HEADER_SIZE <= at && at + HistorySize(|es|) <= end <= |out| < TWO64
    requires out[HEADER_SIZE..end][at - HEADER_SIZE..at - HEADER_SIZE + HistorySize(|es|)] == HistoryHeader(p) + p.file
    ensures ReadU64(out, at + NUM_ENTRIES_AT) == |es|
    ensures Unpack(out[at + HISTORY_SIZE..at + HistorySize(|es|)], |es|) == es
  {
    hide LittleEndian, HistoryHeader, Unpack, Pack;
    var whole := out[at..at + HistorySize(|es|)];
    SliceOfSlice(out, HEADER_SIZE, end, at - HEADER_SIZE, at - HEADER_SIZE + HistorySize(|es|));
    HeaderCount(p);
    SliceOfSlice(out, at, at + HistorySize(|es|), NUM_ENTRIES_AT, NUM_ENTRIES_AT + 8);
    assert whole[NUM_ENTRIES_AT..NUM_ENTRIES_AT + 8] == HistoryHeader(p)[NUM_ENTRIES_AT..NUM_ENTRIES_AT + 8];
    SliceOfSlice(out, at, at + HistorySize(|es|), HISTORY_SIZE, HistorySize(|es|));
    assert whole[HISTORY_SIZE..HistorySize(|es|)] == p.file;
    UnpackPack(es);
  }

  /** From the producer to the reader: an lcore whose recorder kept up is read back
      from the converged file with exactly its history. */
  lemma {:induction false} RecordedHistoryIsReadBack(ports: seq<Lcore>, meta: seq<Byte>, owners: seq<Byte>, i: nat,
                                                     polls: seq<Ring>, m: nat, h: seq<Entry>, p: Port)
    requires Fits(ports, owners) && |meta| == META_SIZE && i < MAX_LCORE && ports[i].valid
    requires Observes(polls, m, h) && Stamped(h) && (forall t :: 0 <= t < |polls| ==> Gain(polls, t) <= Pow2(m))
    requires RunPolls(FRESH, polls) == Ok(p) && ports[i].file == Pack(p.file) && ports[i].numEntries == p.numEntries
    ensures HEADER_SIZE <= |Layout(ports, meta, owners)|
    ensures ReadHistory(Layout(ports, meta, owners), i) == History(h[..Last(polls)])
  {
    hide Layout, ReadHistory, RunPolls, Pack, Holds, Stamped, Fits;
    RunRecords(polls, m, h);
    KeepingUpRecordsAll(polls, m, h);
    AggregateRoundTrip(ports, meta, owners, i, h[..Last(polls)]);
  }
}
