/** The latency histogram: where `spdk_histogram_data_tally` counts a data point,
    which range the C iterator reports for that bucket, and which range the script
    `histogram.py` prints for it. */
module Histogram {
  import opened Arith

  /** `struct spdk_histogram_data` without its buckets. */
  datatype Shape = Shape(granularity: nat, minRange: nat, maxRange: nat)

  datatype Bucket = Bucket(range: nat, index: nat)

  function PerRange(h: Shape): nat {
    Pow2(h.granularity)
  }

  // ------------------------------------------------------------------- counting

  /** `__spdk_histogram_data_get_bucket_range`. */
  function RangeOf(h: Shape, v: nat): nat {
    if BitLength(v) >= h.granularity then BitLength(v) - h.granularity else 0
  }

  /** `__spdk_histogram_data_get_bucket_index`. */
  function IndexOf(h: Shape, v: nat, range: nat): nat {
    And(ShiftRight(v, if range == 0 then 0 else range - 1), PerRange(h) - 1)
  }

  /** `spdk_histogram_data_tally`: the bucket that counts `v`. */
  function Tally(h: Shape, v: nat): Bucket {
    var range := RangeOf(h, v);
    if range < h.minRange then Bucket(h.minRange, 0)
    else if range > h.maxRange then Bucket(h.maxRange, PerRange(h) - 1)
    else Bucket(range, IndexOf(h, v, range))
  }

  // ------------------------------------------------------------------ reporting

  /** Where the range of a bucket ends. */
  function Limit(h: Shape, b: Bucket): nat {
    if b.range > 0 then Pow2(b.range + h.granularity - 1) + (b.index + 1) * Pow2(b.range - 1) else b.index + 1
  }

  /** `__spdk_histogram_data_get_bucket_start`: the same in 64-bit arithmetic. */
  function End(h: Shape, b: Bucket): nat {
    Limit(h, b) % TWO64
  }

  function Before(h: Shape, b: Bucket): Bucket
    requires b.index > 0 || b.range > 0
  {
    if b.index > 0 then Bucket(b.range, b.index - 1) else Bucket(b.range - 1, PerRange(h) - 1)
  }

  /** Where it starts: at the end of the bucket before it, or at zero. */
  function Base(h: Shape, b: Bucket): nat {
    if b == Bucket(h.minRange, 0) || (b.index == 0 && b.range == 0) then 0 else Limit(h, Before(h, b))
  }

  /** The same in 64-bit arithmetic. */
  function Start(h: Shape, b: Bucket): nat {
    Base(h, b) % TWO64
  }

  /** The C iterator reports `v` in the range of bucket `b`. */
  predicate Reports(h: Shape, b: Bucket, v: nat) {
    Start(h, b) <= v < End(h, b)
  }

  /** `spdk_histogram_data_alloc_sized_ext` for bounds that it accepts. */
  function Alloc(granularity: nat, minVal: nat, maxVal: nat): Shape
    requires minVal < maxVal
  {
    var h := Shape(granularity, 0, 0);
    Shape(granularity, RangeOf(h, minVal), RangeOf(h, maxVal - 1))
  }

  /** What it makes of 64-bit bounds, with bucket indices that fit their 32-bit type. */
  ghost predicate Allocated(h: Shape) {
    h.granularity < 32 && h.minRange <= h.maxRange && h.maxRange + h.granularity <= 64
  }

  lemma MulCancel(a: int, b: int, p: nat)
    requires p > 0
    ensures a < b <==> a * p < b * p
    ensures a <= b <==> a * p <= b * p
  {
    if a < b { assert (b - a) * p >= p by { MulMono(1, b - a, p); } }
    else { assert (a - b) * p >= 0; }
  }

  /** Buckets of a range are adjacent, and the next range starts where it ends. */
  lemma EndOfRange(h: Shape, range: nat)
    ensures Limit(h, Bucket(range, PerRange(h) - 1)) == Pow2(range + h.granularity)
  {
    var g := h.granularity;
    if range > 0 {
      Pow2Add(g, range - 1);
      assert Pow2(range + g) == 2 * Pow2(range + g - 1);
    }
  }

  /** The bounds of a bucket in units of its width. */
  lemma Bounds(h: Shape, b: Bucket)
    requires b.index < PerRange(h)
    ensures b.range > 0 ==> Limit(h, b) == (PerRange(h) + b.index + 1) * Pow2(b.range - 1)
    ensures b.range > 0 && b != Bucket(h.minRange, 0) ==> Base(h, b) == (PerRange(h) + b.index) * Pow2(b.range - 1)
    ensures b.range == 0 && (h.minRange == 0 || b.index > 0) ==> Base(h, b) == b.index
  {
    if b.range > 0 {
      var p := Pow2(b.range - 1);
      Pow2Add(h.granularity, b.range - 1);
      EndOfRange(h, b.range - 1);
      assert PerRange(h) * p + (b.index + 1) * p == (PerRange(h) + b.index + 1) * p;
      assert PerRange(h) * p + b.index * p == (PerRange(h) + b.index) * p;
    }
  }

  lemma SecondLap(d: nat, n: nat)
    requires n <= d < 2 * n
    ensures Mod(d, n) == d - n
  {
    DivUnique(d, n, 1, d - n);
  }

  lemma DigitBounds(v: nat, d: nat, p: nat, n: nat)
    requires p > 0 && d * p <= v < (d + 1) * p && n * p <= v < 2 * (n * p)
    ensures n <= d < 2 * n
  {
    assert 2 * (n * p) == (2 * n) * p;
    MulCancel(n, d + 1, p);
    MulCancel(d, 2 * n, p);
  }

  /** A data point lies between two powers of two. */
  lemma ValueBounds(h: Shape, v: nat)
    requires RangeOf(h, v) > 0
    ensures var q := Pow2(h.granularity + (RangeOf(h, v) - 1)); q <= v < 2 * q
  {
    hide Pow2;
    BitLengthBounds(v);
    Pow2Double(BitLength(v) - 1);
  }

  /** A data point in units of the bucket width of its range: the leading digits. */
  lemma LeadingDigits(h: Shape, v: nat)
    requires RangeOf(h, v) > 0
    ensures var r := RangeOf(h, v);
      var d, p := ShiftRight(v, r - 1), Pow2(r - 1);
      && d * p <= v < (d + 1) * p
      && PerRange(h) <= d < 2 * PerRange(h)
      && IndexOf(h, v, r) == d - PerRange(h)
  {
    hide And, Mod, Pow2, ShiftRight, BitLength, RangeOf;
    var r := RangeOf(h, v);
    var d := ShiftRight(v, r - 1);
    ValueBounds(h, v);
    Pow2Add(h.granularity, r - 1);
    ShiftIsQuotient(v, r - 1);
    DigitBounds(v, d, Pow2(r - 1), PerRange(h));
    AndMask(d, h.granularity);
    SecondLap(d, PerRange(h));
  }

  lemma SmallValue(h: Shape, v: nat)
    requires RangeOf(h, v) == 0
    ensures v < PerRange(h) && IndexOf(h, v, 0) == v
  {
    hide And, Mod, Pow2;
    BitLengthBounds(v);
    Pow2Mono(BitLength(v), h.granularity);
    AndMask(v, h.granularity);
    ModSmall(v, PerRange(h));
  }

  /** Without wrap-around, the range of the bucket that counts a data point contains it,
      if and only if the data point is not above the largest range. */
  lemma TallyIsInRangeIff(h: Shape, v: nat)
    requires h.minRange <= h.maxRange
    ensures var b := Tally(h, v);
      && b.index < PerRange(h) && h.minRange <= b.range <= h.maxRange
      && (Base(h, b) <= v < Limit(h, b) <==> RangeOf(h, v) <= h.maxRange)
  {
    hide And, IndexOf, BitLength, RangeOf, Pow2, ShiftRight, Limit, Base;
    var r := RangeOf(h, v);
    var b := Tally(h, v);
    if r > 0 { LeadingDigits(h, v); } else { SmallValue(h, v); }
    PositiveWidth(h, 0);
    Bounds(h, b);
    if r > h.maxRange {
      EndOfRange(h, h.maxRange);
      AboveRange(h, v, h.maxRange);
    } else if b == Bucket(h.minRange, 0) {
      StartOfFirst(h);
      if r < h.minRange { BelowRange(h, v, h.minRange); } else { EndOfSmall(h, b); }
    } else {
      EndOfSmall(h, b);
    }
  }

  lemma StartOfFirst(h: Shape)
    ensures Base(h, Bucket(h.minRange, 0)) == 0
  {
  }

  lemma EndOfSmall(h: Shape, b: Bucket)
    ensures b.range == 0 ==> Limit(h, b) == b.index + 1
  {
  }

  /** Data points of a higher range lie behind a range, those of a lower one before it. */
  lemma AboveRange(h: Shape, v: nat, range: nat)
    requires RangeOf(h, v) > range
    ensures v >= Pow2(range + h.granularity)
  {
    BitLengthBounds(v);
    Pow2Mono(range + h.granularity, BitLength(v) - 1);
  }

  lemma BelowRange(h: Shape, v: nat, range: nat)
    requires RangeOf(h, v) < range
    ensures v < Pow2(range + h.granularity - 1) <= Limit(h, Bucket(range, 0))
  {
    BitLengthBounds(v);
    Pow2Mono(BitLength(v), range + h.granularity - 1);
  }

  // ------------------------------------------------------------- 64-bit arithmetic

  lemma Pow64()
    ensures Pow2(16) == 0x1_0000 && Pow2(32) == 0x1_0000_0000 && Pow2(64) == TWO64
  {
    assert Pow2(8) == 256;
    Pow2Add(8, 8);
    Pow2Add(16, 16);
    Pow2Add(32, 32);
  }

  /** Only the end of the very last bucket of 64-bit data points does not fit. */
  lemma LimitFits(h: Shape, b: Bucket)
    requires h.granularity < 32 && b.range + h.granularity <= 64 && b.index < PerRange(h)
    ensures Limit(h, b) <= TWO64
    ensures Limit(h, b) == TWO64 <==> b.range + h.granularity == 64 && b.index == PerRange(h) - 1
  {
    hide Pow2, Limit, PerRange;
    Pow64();
    EndOfRange(h, b.range);
    Pow2Mono(b.range + h.granularity, 64);
    if b.index < PerRange(h) - 1 { LimitIncreases(h, b.range, b.index, PerRange(h) - 1); }
    if b.range + h.granularity < 64 {
      Pow2Double(63);
      Pow2Mono(b.range + h.granularity, 63);
    }
  }

  lemma LimitIncreases(h: Shape, range: nat, i: nat, j: nat)
    requires i < j
    ensures Limit(h, Bucket(range, i)) < Limit(h, Bucket(range, j))
  {
    if range > 0 { MulCancel(i + 1, j + 1, Pow2(range - 1)); }
  }

  /** Where a bucket starts always fits. */
  lemma BaseFits(h: Shape, b: Bucket)
    requires h.granularity < 32 && b.range + h.granularity <= 64 && b.index < PerRange(h)
    ensures Base(h, b) < TWO64
  {
    hide Limit, PerRange;
    PositiveWidth(h, 0);
    if b.index > 0 || b.range > 0 { LimitFits(h, Before(h, b)); }
  }

  /** The bucket whose end the iterator reports as zero. */
  predicate EndsAtZero(h: Shape, b: Bucket) {
    b.range + h.granularity == 64 && b.index == PerRange(h) - 1
  }

  /** Round trip of counting and reporting 64-bit data points: the range that the
      iterator reports for the bucket of a data point contains it, if and only if the
      data point is not above the largest range and not in the bucket whose end wraps
      around to zero. */
  lemma TallyIsReportedIff(h: Shape, v: nat)
    requires Allocated(h) && v < TWO64
    ensures Tally(h, v).index < PerRange(h)
    ensures Reports(h, Tally(h, v), v) <==> RangeOf(h, v) <= h.maxRange && !EndsAtZero(h, Tally(h, v))
  {
    hide PerRange, Limit, Base, Tally, RangeOf;
    var b := Tally(h, v);
    TallyIsInRangeIff(h, v);
    LimitFits(h, b);
    BaseFits(h, b);
  }

  /** A data point above the largest range is counted in its last bucket, and one below
      the smallest range in its first. */
  lemma TallyClamps(h: Shape, v: nat)
    requires h.minRange <= h.maxRange
    ensures RangeOf(h, v) > h.maxRange ==>
              var b := Tally(h, v);
              && b.range == h.maxRange && Limit(h, b) == Pow2(h.maxRange + h.granularity) <= v
              && b.index + 1 == PerRange(h)
    ensures RangeOf(h, v) < h.minRange ==> Tally(h, v) == Bucket(h.minRange, 0)
  {
    hide RangeOf, Pow2, Limit;
    if RangeOf(h, v) > h.maxRange {
      EndOfRange(h, h.maxRange);
      AboveRange(h, v, h.maxRange);
    }
    PositiveWidth(h, 0);
  }

  /** The default histogram, which is to cover all 64-bit data points, reports exactly
      those of the last bucket, from 2^64 - 2^56 on, in a range that ends at zero. */
  lemma DefaultMisreportsIff(v: nat)
    requires v < TWO64
    ensures var h := Shape(7, 0, 57);
      && Allocated(h)
      && (!Reports(h, Tally(h, v), v) <==> v >= TWO64 - 0x100_0000_0000_0000)
      && (v >= TWO64 - 0x100_0000_0000_0000 ==> End(h, Tally(h, v)) == 0)
  {
    hide RangeOf, IndexOf, Limit, Base, Pow2, ShiftRight;
    var h := Shape(7, 0, 57);
    TallyIsReportedIff(h, v);
    RangeOf64(h, v);
    var b := Tally(h, v);
    assert PerRange(h) == 128 by { Pow2Of7(); }
    LimitFits(h, b);
    if b.range == 57 { LastRange(h, v); } else { LowRange(h, v); }
  }

  lemma Pow2Of7()
    ensures Pow2(7) == 128
  {
  }

  lemma Pow2Of56()
    ensures Pow2(56) == 0x100_0000_0000_0000
  {
    Pow64();
    assert Pow2(8) == 256;
    Pow2Add(32, 16);
    Pow2Add(48, 8);
  }

  /** No 64-bit data point has a range above that of 64 digits. */
  lemma RangeOf64(h: Shape, v: nat)
    requires v < TWO64 && h.granularity <= 64
    ensures RangeOf(h, v) + h.granularity <= 64
  {
    hide Pow2;
    Pow64();
    BitLengthBounds(v);
    if BitLength(v) > 64 { Pow2Mono(64, BitLength(v) - 1); }
  }

  lemma {:induction false} BitLengthMono(a: nat, b: nat)
    requires a <= b
    ensures BitLength(a) <= BitLength(b)
  {
    if a > 0 { BitLengthMono(a / 2, b / 2); }
  }

  /** Every histogram that can be allocated is one of these, and so is the default one. */
  lemma AllocIsAllocated(granularity: nat, minVal: nat, maxVal: nat)
    requires granularity < 32 && minVal < maxVal < TWO64
    ensures Allocated(Alloc(granularity, minVal, maxVal))
    ensures Alloc(7, 0, TWO64 - 1) == Shape(7, 0, 57)
  {
    hide BitLength;
    RangeOf64(Shape(granularity, 0, 0), maxVal - 1);
    BitLengthMono(minVal, maxVal - 1);
    DefaultRanges();
  }

  lemma DefaultRanges()
    ensures RangeOf(Shape(7, 0, 0), 0) == 0 && RangeOf(Shape(7, 0, 0), TWO64 - 2) == 57
  {
    hide Pow2;
    Pow64();
    Pow2Double(63);
    RangeOf64(Shape(7, 0, 0), TWO64 - 2);
    BitLengthBounds(TWO64 - 2);
    Pow2Mono(Min(BitLength(TWO64 - 2), 63), 63);
  }

  lemma LastRange(h: Shape, v: nat)
    requires h == Shape(7, 0, 57) && RangeOf(h, v) == 57
    ensures IndexOf(h, v, 57) == 127 <==> v >= TWO64 - 0x100_0000_0000_0000
  {
    hide RangeOf, IndexOf, Pow2, ShiftRight;
    LeadingDigits(h, v);
    Pow2Of7();
    Pow2Of56();
  }

  lemma LowRange(h: Shape, v: nat)
    requires h == Shape(7, 0, 57) && RangeOf(h, v) < 57
    ensures v < TWO64 - 0x100_0000_0000_0000
  {
    hide Pow2, RangeOf;
    Pow64();
    Pow2Double(63);
    BelowRange(h, v, 57);
  }

  // ------------------------------------------------------------------ the script

  /** `bucket` in the loops of `histogram.py`, for row `i` and column `j`. */
  function ScriptEnd(h: Shape, i: nat, j: nat): nat {
    if i > 0 then Pow2(i + h.granularity + h.minRange - 1) + (j + 1) * Pow2(i + h.minRange - 1)
    else (j + 1) * Pow2(h.minRange)
  }

  /** `last_bucket`: the end of the row before. */
  function ScriptStart(h: Shape, i: nat, j: nat): nat {
    if j > 0 then ScriptEnd(h, i, j - 1)
    else if i > 0 then ScriptEnd(h, i - 1, PerRange(h) - 1)
    else 0
  }

  lemma ScriptRowEnd(h: Shape, i: nat)
    ensures ScriptEnd(h, i, PerRange(h) - 1) == Pow2(i + h.granularity + h.minRange)
  {
    if i > 0 { EndOfRange(h, i + h.minRange); } else { Pow2Add(h.granularity, h.minRange); }
  }

  /** Behind the first row the script prints the ranges of the buckets... */
  lemma ScriptMatchesRange(h: Shape, i: nat, j: nat)
    requires i > 0
    ensures ScriptEnd(h, i, j) == Limit(h, Bucket(h.minRange + i, j))
    ensures ScriptStart(h, i, j) == Base(h, Bucket(h.minRange + i, j))
  {
    hide Pow2;
    if j == 0 {
      ScriptRowEnd(h, i - 1);
      EndOfRange(h, h.minRange + i - 1);
    }
  }

  /** ... which are those of the C iterator, because the script has no row for the range
      whose last bucket wraps around. */
  lemma ScriptMatchesIterator(h: Shape, i: nat, j: nat)
    requires Allocated(h) && 0 < i < h.maxRange - h.minRange && j < PerRange(h)
    ensures ScriptEnd(h, i, j) == End(h, Bucket(h.minRange + i, j))
    ensures ScriptStart(h, i, j) == Start(h, Bucket(h.minRange + i, j))
  {
    hide Limit, Base, ScriptEnd, ScriptStart, PerRange;
    ScriptMatchesRange(h, i, j);
    LimitFits(h, Bucket(h.minRange + i, j));
    BaseFits(h, Bucket(h.minRange + i, j));
  }

  /** The script prints `v` in the range of the bucket that counts it. It has no rows
      for the buckets of the largest range. */
  predicate ScriptPrints(h: Shape, v: nat) {
    var b := Tally(h, v);
    && h.minRange <= b.range < h.maxRange
    && ScriptStart(h, b.range - h.minRange, b.index) <= v < ScriptEnd(h, b.range - h.minRange, b.index)
  }

  /** The first row in the case that small ranges are cut off. */
  lemma FirstRow(h: Shape, v: nat)
    requires h.minRange > 0 && RangeOf(h, v) == h.minRange
    ensures var j := IndexOf(h, v, h.minRange);
      j < PerRange(h) && (ScriptStart(h, 0, j) <= v < ScriptEnd(h, 0, j) <==> j == PerRange(h) - 1)
  {
    hide And, IndexOf, BitLength, RangeOf, Pow2, ShiftRight;
    LeadingDigits(h, v);
    var p, n, j := Pow2(h.minRange - 1), PerRange(h), IndexOf(h, v, h.minRange);
    var d := ShiftRight(v, h.minRange - 1);
    assert Pow2(h.minRange) == 2 * p by { Pow2Double(h.minRange - 1); }
    assert ScriptEnd(h, 0, j) == (2 * j + 2) * p by { assert (j + 1) * (2 * p) == (2 * j + 2) * p; }
    assert ScriptStart(h, 0, j) == (2 * j) * p by { assert j * (2 * p) == (2 * j) * p; }
    MulMono(2 * j, d, p);
    if j < n - 1 { MulMono(2 * j + 2, d, p); } else { MulMono(d + 1, 2 * j + 2, p); }
  }

  /** The data points that the script prints in the right range are exactly those of a
      row it has, unless the histogram cuts off small ranges and the data point was
      counted in its first row; of those only the ones in the last column and the ones
      below the first column's end are right. */
  lemma ScriptPrintsIff(h: Shape, v: nat)
    requires h.minRange < h.maxRange
    ensures var r := RangeOf(h, v);
      ScriptPrints(h, v) <==>
        && r < h.maxRange
        && (|| h.minRange == 0
            || r > h.minRange
            || (r == h.minRange && IndexOf(h, v, r) == PerRange(h) - 1)
            || (r < h.minRange && v < Pow2(h.minRange)))
  {
    hide And, IndexOf, BitLength, RangeOf, Pow2;
    var r := RangeOf(h, v);
    var b := Tally(h, v);
    TallyIsInRangeIff(h, v);
    if h.minRange < r < h.maxRange {
      ScriptMatchesRange(h, r - h.minRange, b.index);
    } else if r == h.minRange > 0 {
      FirstRow(h, v);
    } else if r == h.minRange {
      SmallValue(h, v);
      Pow2Zero();
    }
  }

  /** With ranges cut off, a data point can be printed outside its range: 2 is counted
      in the first bucket of range 1, which the script prints as [0, 2). */
  lemma ScriptMisprints()
    ensures !ScriptPrints(Shape(1, 1, 3), 2) && TallyPrinted(Shape(1, 1, 3), 2) == (0, 2)
  {
    var h := Shape(1, 1, 3);
    assert BitLength(2) == 2 && RangeOf(h, 2) == 1 && Pow2(0) == 1 && Pow2(1) == 2;
    assert ShiftRight(2, 0) == 2 && IndexOf(h, 2, 1) == And(2, 1) == 0;
  }

  /** The range that the script prints for the bucket of `v`. */
  function TallyPrinted(h: Shape, v: nat): (nat, nat) {
    var b := Tally(h, v);
    if b.range < h.minRange then (0, 0)
    else (ScriptStart(h, b.range - h.minRange, b.index), ScriptEnd(h, b.range - h.minRange, b.index))
  }

  // ---------------------------------------------------------- all rows of the script

  datatype Row = Row(start: nat, end: nat, count: nat, soFar: nat)

  /** The counter of a bucket; a slice behind the end of the data reads as zero. */
  function CountAt(counts: seq<nat>, k: nat): nat {
    if k < |counts| then counts[k] else 0
  }

  /** The sum of the first `k` counters. */
  function SumTo(counts: seq<nat>, k: nat): nat {
    if k == 0 then 0 else SumTo(counts, k - 1) + CountAt(counts, k - 1)
  }

  /** The rows before row `i`, column `j`. */
  function Rows(h: Shape, counts: seq<nat>, i: nat, j: nat): (r: seq<Row>)
    requires j <= PerRange(h)
    ensures |r| == i * PerRange(h) + j
    decreases i, j
  {
    if j > 0 then
      var k := i * PerRange(h) + (j - 1);
      Rows(h, counts, i, j - 1) +
        [Row(ScriptStart(h, i, j - 1), ScriptEnd(h, i, j - 1), CountAt(counts, k), SumTo(counts, k + 1))]
    else if i > 0 then
      assert i * PerRange(h) == (i - 1) * PerRange(h) + PerRange(h);
      Rows(h, counts, i - 1, PerRange(h))
    else []
  }

  /** The counts of the first `k` rows, added up. */
  function CountsTo(rows: seq<Row>, k: nat): nat
    requires k <= |rows|
  {
    if k == 0 then 0 else CountsTo(rows, k - 1) + rows[k - 1].count
  }

  /** Each row has the counter of its bucket and the sum of the counts up to it. */
  ghost predicate Cumulates(rows: seq<Row>, counts: seq<nat>) {
    forall k :: 0 <= k < |rows| ==>
      && rows[k].count == (if k < |counts| then counts[k] else 0)
      && rows[k].soFar == CountsTo(rows, k + 1)
  }

  lemma {:induction false} CountsToPrefix(rows: seq<Row>, row: Row, k: nat)
    requires k <= |rows|
    ensures CountsTo(rows + [row], k) == CountsTo(rows, k)
  {
    if k > 0 { CountsToPrefix(rows, row, k - 1); }
  }

  lemma {:induction false} RowsCumulate(h: Shape, counts: seq<nat>, i: nat, j: nat)
    requires j <= PerRange(h)
    ensures var rows := Rows(h, counts, i, j);
      Cumulates(rows, counts) && CountsTo(rows, |rows|) == SumTo(counts, |rows|)
    decreases i, j
  {
    hide ScriptStart, ScriptEnd, Pow2;
    if j > 0 {
      RowsCumulate(h, counts, i, j - 1);
      var before, rows := Rows(h, counts, i, j - 1), Rows(h, counts, i, j);
      var n := |before|;
      assert n == i * PerRange(h) + (j - 1);
      assert rows == before + [rows[n]];
      CountsToPrefix(before, rows[n], n);
      assert CountsTo(rows, n + 1) == SumTo(counts, n + 1);
      forall k | 0 <= k < n ensures rows[k].soFar == CountsTo(rows, k + 1) { CountsToPrefix(before, rows[n], k + 1); }
    } else if i > 0 {
      assert i * PerRange(h) == (i - 1) * PerRange(h) + PerRange(h);
      RowsCumulate(h, counts, i - 1, PerRange(h));
    }
  }

  /** Rows are contiguous from zero and each one is nonempty. */
  ghost predicate Tiles(rows: seq<Row>, end: nat) {
    && (rows == [] ==> end == 0)
    && (rows != [] ==> rows[0].start == 0 && rows[|rows| - 1].end == end)
    && (forall k :: 0 <= k < |rows| ==> rows[k].start < rows[k].end)
    && (forall k :: 0 < k < |rows| ==> rows[k].start == rows[k - 1].end)
  }

  /** The widths of the script's buckets: that of the row, and behind the first row at
      most 2^-g of the values in it. */
  lemma ScriptWidth(h: Shape, i: nat, j: nat)
    requires j < PerRange(h)
    ensures ScriptEnd(h, i, j) - ScriptStart(h, i, j) == if i > 0 then Pow2(i + h.minRange - 1) else Pow2(h.minRange)
    ensures i > 0 ==> (ScriptEnd(h, i, j) - ScriptStart(h, i, j)) * PerRange(h) <= ScriptStart(h, i, j)
  {
    hide Pow2;
    var p := Pow2(if i > 0 then i + h.minRange - 1 else h.minRange);
    assert (j + 1) * p == j * p + p && j * p >= 0;
    if i > 0 {
      ScriptRowEnd(h, i - 1);
      Pow2Add(i + h.minRange - 1, h.granularity);
    }
  }

  lemma {:induction false} RowsTile(h: Shape, counts: seq<nat>, i: nat, j: nat)
    requires j <= PerRange(h)
    ensures Tiles(Rows(h, counts, i, j), if j > 0 then ScriptEnd(h, i, j - 1) else ScriptStart(h, i, 0))
    decreases i, j
  {
    hide ScriptEnd, Pow2;
    if j > 0 {
      RowsTile(h, counts, i, j - 1);
      ScriptWidth(h, i, j - 1);
      assert j == 1 ==> ScriptStart(h, i, 0) == ScriptStart(h, i, j - 1);
      PositiveWidth(h, i);
    } else if i > 0 {
      RowsTile(h, counts, i - 1, PerRange(h));
      PositiveWidth(h, i);
    }
  }

  lemma PositiveWidth(h: Shape, i: nat)
    ensures PerRange(h) > 0 && Pow2(h.minRange) > 0 && (i > 0 ==> Pow2(i + h.minRange - 1) > 0)
  {
  }

  predicate Inside(r: Row, v: nat) {
    r.start <= v < r.end
  }

  /** In a tiling every value below the end lies in exactly one row. */
  lemma {:induction false} TileUnique(rows: seq<Row>, end: nat, v: nat)
    requires Tiles(rows, end) && v < end
    ensures exists k :: 0 <= k < |rows| && Inside(rows[k], v)
    ensures forall a, b :: 0 <= a < b < |rows| ==> !Inside(rows[a], v) || !Inside(rows[b], v)
  {
    var n := |rows| - 1;
    TileOrder(rows, end);
    if rows[n].start <= v {
      assert Inside(rows[n], v);
    } else {
      var front := rows[..n];
      assert n > 0;
      TileUnique(front, rows[n].start, v);
      var k :| 0 <= k < |front| && Inside(front[k], v);
      assert Inside(rows[k], v);
    }
  }

  lemma {:induction false} TileOrder(rows: seq<Row>, end: nat)
    requires Tiles(rows, end)
    ensures forall a, b :: 0 <= a < b < |rows| ==> rows[a].end <= rows[b].start
  {
    if |rows| > 1 {
      var n := |rows| - 1;
      var front := rows[..n];
      TileOrder(front, rows[n].start);
      forall a | 0 <= a < n ensures rows[a].end <= rows[n].start {
        if a < n - 1 { assert front[a].end <= front[n - 1].start; }
      }
    }
  }

  /** The loops of the script: the first counts, the second prints. The printed ranges
      tile the values below 2^(g + max - 1) in increasing order, and the cumulative
      count ends one below the total, which starts at one. */
  method Report(h: Shape, counts: seq<nat>) returns (rows: seq<Row>, total: nat, soFar: nat)
    requires h.minRange < h.maxRange
    ensures rows == Rows(h, counts, h.maxRange - h.minRange, 0)
    ensures Tiles(rows, Pow2(h.granularity + h.maxRange - 1))
    ensures Cumulates(rows, counts)
    ensures soFar == total - 1 == SumTo(counts, |rows|)
  {
    hide Pow2, ScriptEnd;
    var n, n0 := h.maxRange - h.minRange, PerRange(h);
    soFar, total := 0, 1;
    var bucket := 0;
    var k := 0;
    for i := 0 to n
      invariant k == i * n0 && total == 1 + SumTo(counts, k)
    {
      for j := 0 to n0
        invariant k == i * n0 + j && total == 1 + SumTo(counts, k)
      {
        total := total + CountAt(counts, k);
        k := k + 1;
      }
      assert (i + 1) * n0 == i * n0 + n0;
    }
    rows := [];
    for i := 0 to n
      invariant rows == Rows(h, counts, i, 0) && soFar == SumTo(counts, |rows|)
      invariant bucket == ScriptStart(h, i, 0)
    {
      PositiveWidth(h, i);
      for j := 0 to n0
        invariant rows == Rows(h, counts, i, j) && soFar == SumTo(counts, |rows|)
        invariant bucket == ScriptStart(h, i, j)
      {
        var count := CountAt(counts, |rows|);
        soFar := soFar + count;
        var lastBucket := bucket;
        bucket := ScriptEnd(h, i, j);
        rows := rows + [Row(lastBucket, bucket, count, soFar)];
      }
    }
    RowsTile(h, counts, n, 0);
    RowsCumulate(h, counts, n, 0);
    ScriptRowEnd(h, n - 1);
  }
}
