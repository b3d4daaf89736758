/** The legacy virtio ring: the event-index test on wrapping 16-bit counters and the
    memory layout (sections 2.6.2, 2.6.7 and 2.6.10 of VIRTIO 1.1). */
module Vring {
  import opened Arith

  const WRAP := 0x1_0000

  /** A free-running counter as a 16-bit index. */
  function Index(x: int): (r: nat)
    ensures r < WRAP
  {
    x % WRAP
  }

  // ------------------------------------------------------------- the event test

  /** `vring_need_event`. */
  predicate NeedEvent(eventIdx: nat, newIdx: nat, oldIdx: nat) {
    Index(newIdx - eventIdx - 1) < Index(newIdx - oldIdx)
  }

  /** Some counter value in [o, n) has index `eventIdx`. */
  ghost predicate Crosses(eventIdx: nat, o: nat, n: nat) {
    exists k: nat :: o <= k < n && Index(k) == eventIdx
  }

  /** The last counter value before `n` with index `eventIdx`. */
  function LastBefore(eventIdx: nat, n: nat): int {
    n - 1 - Index(n - eventIdx - 1)
  }

  lemma LastBeforeIsLast(eventIdx: nat, n: nat, k: int)
    requires eventIdx < WRAP && k < n && Index(k) == eventIdx
    ensures k <= LastBefore(eventIdx, n)
  {
  }

  /** Wrapping the operands of a difference does not change its index. */
  lemma IndexSub(a: int, b: int)
    ensures Index(Index(a) - b) == Index(a - b) == Index(a - Index(b))
  {
  }

  lemma IndexSmall(x: nat)
    requires x < WRAP
    ensures Index(x) == x
  {
  }

  lemma LastBeforeIndex(eventIdx: nat, n: nat)
    requires eventIdx < WRAP
    ensures LastBefore(eventIdx, n) < n && Index(LastBefore(eventIdx, n)) == eventIdx
  {
  }

  /** The test on the wrapped indices decides whether a batch of fewer than 2^16
      increments passes the event index. */
  lemma NeedEventIff(eventIdx: nat, o: nat, n: nat)
    requires eventIdx < WRAP && o <= n < o + WRAP
    ensures NeedEvent(eventIdx, Index(n), Index(o)) <==> Crosses(eventIdx, o, n)
  {
    hide Index;
    var last := LastBefore(eventIdx, n);
    IndexSub(n, eventIdx + 1);
    IndexSub(n, o);
    IndexSub(n, Index(o));
    IndexSmall(n - o);
    LastBeforeIndex(eventIdx, n);
    assert Index(n) - eventIdx - 1 == Index(n) - (eventIdx + 1) && n - eventIdx - 1 == n - (eventIdx + 1);
    assert NeedEvent(eventIdx, Index(n), Index(o)) <==> o <= last;
    if Crosses(eventIdx, o, n) {
      var k: nat :| o <= k < n && Index(k) == eventIdx;
      LastBeforeIsLast(eventIdx, n, k);
    }
  }

  /** The counter values in [o, n) with index `eventIdx`. */
  function Crossings(eventIdx: nat, o: nat, n: nat): nat
    decreases n
  {
    if n <= o then 0 else Crossings(eventIdx, o, n - 1) + if Index(n - 1) == eventIdx then 1 else 0
  }

  lemma {:induction false} CrossingsSplit(eventIdx: nat, o: nat, m: nat, n: nat)
    requires o <= m <= n
    ensures Crossings(eventIdx, o, n) == Crossings(eventIdx, o, m) + Crossings(eventIdx, m, n)
    decreases n
  {
    if m < n { CrossingsSplit(eventIdx, o, m, n - 1); }
  }

  lemma IndexDistinct(j: nat, k: nat)
    requires j < k < j + WRAP
    ensures Index(j) != Index(k)
  {
  }

  /** Fewer than 2^16 increments cross an index at most once. */
  lemma {:induction false} CrossingsOnce(eventIdx: nat, o: nat, n: nat)
    requires o <= n <= o + WRAP
    ensures Crossings(eventIdx, o, n) <= 1
    ensures Crossings(eventIdx, o, n) == 1 <==> Crosses(eventIdx, o, n)
    decreases n
  {
    hide Index;
    if o < n {
      CrossingsOnce(eventIdx, o, n - 1);
      forall k: nat | o <= k < n - 1 ensures Index(k) != Index(n - 1) { IndexDistinct(k, n - 1); }
      if Crosses(eventIdx, o, n) {
        var k: nat :| o <= k < n && Index(k) == eventIdx;
        assert k < n - 1 ==> Crosses(eventIdx, o, n - 1);
      }
      if Crosses(eventIdx, o, n - 1) {
        var k: nat :| o <= k < n - 1 && Index(k) == eventIdx;
        assert Crosses(eventIdx, o, n);
      }
    }
  }

  /** The number of batches that trigger an event; `stops` are the counter values after
      the batches, starting from `o`. */
  function Triggers(eventIdx: nat, o: nat, stops: seq<nat>): nat
    decreases |stops|
  {
    if stops == [] then 0
    else (if NeedEvent(eventIdx, Index(stops[0]), Index(o)) then 1 else 0) + Triggers(eventIdx, stops[0], stops[1..])
  }

  ghost predicate Batches(o: nat, stops: seq<nat>)
    decreases |stops|
  {
    stops == [] || (o <= stops[0] < o + WRAP && Batches(stops[0], stops[1..]))
  }

  /** Over any chain of batches no event is lost and none is raised twice: as many
      batches trigger as there are passes of the event index. */
  lemma {:induction false} TriggersAreCrossings(eventIdx: nat, o: nat, stops: seq<nat>)
    requires eventIdx < WRAP && Batches(o, stops)
    ensures var end := if stops == [] then o else stops[|stops| - 1];
      o <= end && Triggers(eventIdx, o, stops) == Crossings(eventIdx, o, end)
    decreases |stops|
  {
    if stops != [] {
      var n := stops[0];
      NeedEventIff(eventIdx, o, n);
      CrossingsOnce(eventIdx, o, n);
      TriggersAreCrossings(eventIdx, n, stops[1..]);
      var end := if |stops| == 1 then n else stops[|stops| - 1];
      CrossingsSplit(eventIdx, o, n, end);
    }
  }

  // ----------------------------------------------------------------- the layout

  const DESC_SIZE := 16
  const USED_ELEM_SIZE := 8

  /** `x & ~(align - 1)` on 64-bit words. */
  function AlignDown(x: nat, align: nat): nat
    requires 0 < align <= TWO64
  {
    And(x, TWO64 - align)
  }

  /** Clearing the low bits of a word leaves its multiple of 2^m. */
  lemma {:induction false} AndHighBits(x: nat, m: nat, w: nat)
    requires m <= w && x < Pow2(w)
    ensures Pow2(m) <= Pow2(w) && And(x, Pow2(w) - Pow2(m)) == x - Mod(x, Pow2(m))
  {
    hide Mod, And;
    Pow2Mono(m, w);
    if m == 0 {
      AndAll(x, w);
      ModOne(x);
    } else {
      HalfBelow(x, w - 1);
      AndHighBits(x / 2, m - 1, w - 1);
      ModDouble(x, Pow2(m - 1));
      AndEven(x, Pow2(w - 1) - Pow2(m - 1));
      assert Pow2(w) - Pow2(m) == 2 * (Pow2(w - 1) - Pow2(m - 1));
    }
  }

  /** The lowest bit of an even mask is clear. */
  lemma AndEven(x: nat, b: nat)
    ensures And(x, 2 * b) == 2 * And(x / 2, b)
  {
    if x > 0 && b > 0 { assert (2 * b) / 2 == b && (2 * b) % 2 == 0; }
  }

  lemma ModOne(x: nat)
    ensures Mod(x, 1) == 0
  {
  }

  lemma HalfBelow(x: nat, w: nat)
    requires x < Pow2(w + 1)
    ensures x / 2 < Pow2(w)
  {
  }

  lemma AndAll(x: nat, w: nat)
    requires x < Pow2(w)
    ensures And(x, Pow2(w) - 1) == x
  {
    AndMask(x, w);
    ModSmall(x, Pow2(w));
  }

  /** The pointers that `vring_init` sets, as addresses. */
  datatype Ring = Ring(num: nat, desc: nat, avail: nat, used: nat)

  function AvailRingAt(r: Ring, k: nat): nat {
    r.avail + 4 + 2 * k
  }

  function UsedRingAt(r: Ring, k: nat): nat {
    r.used + 4 + USED_ELEM_SIZE * k
  }

  function Init(num: nat, p: nat, align: nat): Ring
    requires 0 < align <= TWO64
  {
    var avail := p + num * DESC_SIZE;
    Ring(num, p, avail, AlignDown(avail + 4 + 2 * num + 2 + align - 1, align))
  }

  /** `vring_size`. */
  function Size(num: nat, align: nat): nat
    requires 0 < align <= TWO64
  {
    AlignDown(DESC_SIZE * num + 2 * (3 + num) + align - 1, align) + 2 * 3 + USED_ELEM_SIZE * num
  }

  lemma TwoTo64()
    ensures Pow2(64) == TWO64
  {
    hide Pow2;
    TwoTo8();
    Pow2Add(8, 8);
    Pow2Add(16, 16);
    Pow2Add(32, 32);
  }

  lemma TwoTo8()
    ensures Pow2(8) == 256
  {
  }

  lemma FloorMultiple(y: nat, d: nat)
    requires d > 0
    ensures Mod(y, d) <= y && Multiple(y - Mod(y, d), d)
  {
    DivMod(y, d);
    MultipleMod(y / d, d);
  }

  /** Aligning up: the least multiple of `align` that is not below `x`. */
  lemma AlignUp(x: nat, m: nat)
    requires m <= 64 && x + Pow2(m) - 1 < TWO64
    ensures Pow2(m) <= TWO64
    ensures var a := AlignDown(x + Pow2(m) - 1, Pow2(m));
      Multiple(a, Pow2(m)) && x <= a < x + Pow2(m)
  {
    hide Pow2, Mod, Multiple, And;
    TwoTo64();
    Pow2Mono(m, 64);
    var y := x + Pow2(m) - 1;
    AndHighBits(y, m, 64);
    FloorMultiple(y, Pow2(m));
  }

  /** The ring layout, for every queue size, every alignment that is a power of two and
      every base aligned to it: the descriptors, the available ring with its event
      index and the used ring with its event index follow each other without overlap,
      the used ring is aligned, and the last byte of the layout is the last byte of
      `vring_size`. */
  lemma LayoutIsDisjointAndExact(num: nat, p: nat, m: nat)
    requires m <= 64 && Multiple(p, Pow2(m)) && p + DESC_SIZE * num + 2 * (3 + num) + Pow2(m) - 1 < TWO64
    ensures Pow2(m) <= TWO64
    ensures var r := Init(num, p, Pow2(m));
      && r.desc == p && r.desc + DESC_SIZE * num == r.avail
      && AvailRingAt(r, num) + 2 <= r.used < AvailRingAt(r, num) + 2 + Pow2(m)
      && Multiple(r.used, Pow2(m))
      && UsedRingAt(r, num) + 2 == p + Size(num, Pow2(m))
  {
    hide AlignDown, Multiple, Pow2;
    var d := Pow2(m);
    TwoTo64();
    Pow2Mono(m, 64);
    var x := DESC_SIZE * num + 2 * (3 + num);
    AlignUp(x, m);
    AlignUp(p + x, m);
    var a, b := AlignDown(x + d - 1, d), AlignDown(p + x + d - 1, d);
    MultipleAdd(p, a, d);
    SameMultiple(p + a, b, d);
  }

  /** The ring of 256 descriptors at address 0x10000, aligned to pages. */
  lemma KnownLayout()
    ensures Init(256, 0x1_0000, 4096) == Ring(256, 0x1_0000, 0x1_1000, 0x1_2000)
    ensures Size(256, 4096) == 0x2000 + 6 + 2048
  {
    hide AlignDown, Pow2, Multiple;
    assert Pow2(12) == 4096 by { TwoTo8(); Pow2Add(8, 4); TwoTo4(); }
    TwoTo64();
    AlignUp(4096 + 518, 12);
    AlignUp(0x1_1000 + 518, 12);
    assert Multiple(0x2000, 4096) && Multiple(0x1_2000, 4096) by { ToMultiple(); }
    SameMultiple(AlignDown(4096 + 518 + 4095, 4096), 0x2000, 4096);
    SameMultiple(AlignDown(0x1_1000 + 518 + 4095, 4096), 0x1_2000, 4096);
  }

  lemma TwoTo4()
    ensures Pow2(4) == 16
  {
  }

  lemma ToMultiple()
    ensures Multiple(0x2000, 4096) && Multiple(0x1_2000, 4096)
  {
  }

  /** Two multiples less than one step apart are equal. */
  lemma SameMultiple(a: nat, b: nat, d: nat)
    requires d > 0 && Multiple(a, d) && Multiple(b, d) && a < b + d && b < a + d
    ensures a == b
  {
    if a < b {
      MultipleSub(b, a, d);
      DivUnique(b - a, d, 0, b - a);
    } else if b < a {
      MultipleSub(a, b, d);
      DivUnique(a - b, d, 0, a - b);
    }
  }
}
