/** Integer arithmetic shared by the models: rounding up to a block, powers of
    two and the bitwise masks that the sources build from them. */
module Arith {

  /** 2^64, the modulus of the sources' `uint64_t` arithmetic. */
  const TWO64: nat := 0x1_0000_0000_0000_0000

  function Min(a: int, b: int): int {
    if a < b then a else b
  }

  function Max(a: int, b: int): int {
    if a > b then a else b
  }

  /** Unsigned 64-bit subtraction, wrapping below zero. */
  function Sub64(a: nat, b: nat): (r: nat)
    ensures b <= a < TWO64 ==> r == a - b
  {
    (a - b) % TWO64
  }

  function Mod(n: nat, d: nat): (r: nat)
    requires d > 0
    ensures r < d
  {
    n % d
  }

  predicate Multiple(n: nat, d: nat)
    requires d > 0
  {
    n % d == 0
  }

  /** `SPDK_CEIL_DIV(n, bs) * bs`: `n` rounded up to whole blocks. */
  function RoundUp(n: nat, bs: nat): nat
    requires bs > 0
  {
    ((n + bs - 1) / bs) * bs
  }

  /** Multiplication as repeated addition. */
  function Times(a: nat, w: nat): nat {
    if a == 0 then 0 else w + Times(a - 1, w)
  }

  lemma {:induction false} TimesIsProduct(a: nat, w: nat)
    ensures Times(a, w) == a * w
  {
    if a > 0 {
      TimesIsProduct(a - 1, w);
      assert a * w == (a - 1) * w + w;
    }
  }

  lemma DivMod(n: nat, d: nat)
    requires d > 0
    ensures n == (n / d) * d + n % d
  {
  }

  lemma {:induction false} MultipleMod(k: nat, d: nat)
    requires d > 0
    ensures (k * d) % d == 0 && (k * d) / d == k
  {
    if k > 0 {
      MultipleMod(k - 1, d);
      assert k * d == (k - 1) * d + d;
      ModPlusOne((k - 1) * d, d);
    }
  }

  lemma ModPlusOne(n: nat, d: nat)
    requires d > 0
    ensures (n + d) % d == n % d && (n + d) / d == n / d + 1
  {
    var q, r := n / d, n % d;
    assert n + d == (q + 1) * d + r;
    DivUnique(n + d, d, q + 1, r);
  }

  /** Quotient and remainder are determined by the division equation. */
  lemma DivUnique(n: nat, d: nat, q: nat, r: nat)
    requires r < d && n == q * d + r
    ensures n / d == q && n % d == r
  {
    var q', r' := n / d, n % d;
    assert n == q' * d + r';
    if q' < q {
      assert (q' + 1) * d <= q * d by { MulMono(q' + 1, q, d); }
      assert false;
    } else if q < q' {
      assert (q + 1) * d <= q' * d by { MulMono(q + 1, q', d); }
      assert false;
    }
  }

  lemma MulMono(a: nat, b: nat, d: nat)
    requires a <= b
    ensures a * d <= b * d
  {
    assert (b - a) * d >= 0;
  }

  /** A sum is a multiple of `d` when both terms are. */
  lemma MultipleAdd(a: nat, b: nat, d: nat)
    requires d > 0 && Multiple(a, d) && Multiple(b, d)
    ensures Multiple(a + b, d)
  {
    var x, y := a / d, b / d;
    assert a + b == (x + y) * d;
    MultipleMod(x + y, d);
  }

  lemma MultipleSub(a: nat, b: nat, d: nat)
    requires d > 0 && b <= a && Multiple(a, d) && Multiple(b, d)
    ensures Multiple(a - b, d)
  {
    var x, y := a / d, b / d;
    assert a - b == (x - y) * d;
    assert x >= y;
    MultipleMod(x - y, d);
  }

  /** Rounding up reaches the next multiple, and fixes multiples. */
  lemma RoundUpBounds(n: nat, bs: nat)
    requires bs > 0
    ensures n <= RoundUp(n, bs) < n + bs
    ensures Multiple(RoundUp(n, bs), bs)
    ensures Multiple(n, bs) ==> RoundUp(n, bs) == n
  {
    var m := n + bs - 1;
    DivMod(m, bs);
    MultipleMod(m / bs, bs);
    if n % bs == 0 {
      assert m == (n / bs) * bs + (bs - 1);
      DivUnique(m, bs, n / bs, bs - 1);
    }
  }

  /** A length that fits a buffer of whole blocks still fits once rounded up. */
  lemma RoundUpFits(n: nat, bs: nat, cap: nat)
    requires bs > 0 && Multiple(cap, bs) && n <= cap
    ensures RoundUp(n, bs) <= cap
  {
    RoundUpBounds(n, bs);
    var r := RoundUp(n, bs);
    if cap < r {
      MultipleSub(r, cap, bs);
      assert 0 < r - cap < bs;
      DivUnique(r - cap, bs, 0, r - cap);
      assert false;
    }
  }

  /** Rounding up gives the least multiple that is large enough. */
  lemma RoundUpLeast(n: nat, bs: nat, m: nat)
    requires bs > 0 && Multiple(m, bs) && m < n + bs
    ensures m <= RoundUp(n, bs)
  {
    RoundUpBounds(n, bs);
    var r := RoundUp(n, bs);
    if r < m {
      MultipleSub(m, r, bs);
      DivUnique(m - r, bs, 0, m - r);
      assert false;
    }
  }

  // ---------------------------------------------------------- powers of two

  function Pow2(m: nat): (r: nat)
    ensures r >= 1
  {
    if m == 0 then 1 else 2 * Pow2(m - 1)
  }

  /** Logical shift to the right. */
  function ShiftRight(x: nat, k: nat): nat {
    if k == 0 then x else ShiftRight(x / 2, k - 1)
  }

  lemma Pow2Zero()
    ensures Pow2(0) == 1
  {
  }

  lemma Pow2Double(m: nat)
    ensures Pow2(m + 1) == 2 * Pow2(m)
  {
  }

  lemma MulDouble(d: nat, p: nat)
    ensures d * (2 * p) == 2 * (d * p)
  {
  }

  lemma {:induction false} ShiftIsQuotient(x: nat, k: nat)
    ensures ShiftRight(x, k) * Pow2(k) <= x < (ShiftRight(x, k) + 1) * Pow2(k)
  {
    hide Pow2;
    if k == 0 {
      Pow2Zero();
    } else {
      ShiftIsQuotient(x / 2, k - 1);
      var d, p := ShiftRight(x, k), Pow2(k - 1);
      Pow2Double(k - 1);
      MulDouble(d, p);
      MulDouble(d + 1, p);
    }
  }

  /** Bitwise conjunction of two natural numbers. */
  function And(a: nat, b: nat): (r: nat)
    ensures r <= b
    decreases a + b
  {
    if a == 0 || b == 0 then 0
    else 2 * And(a / 2, b / 2) + (if a % 2 == 1 && b % 2 == 1 then 1 else 0)
  }

  lemma ModDouble(x: nat, p: nat)
    requires p > 0
    ensures Mod(x, 2 * p) == 2 * Mod(x / 2, p) + x % 2
  {
    var h := x / 2;
    var q, r := h / p, h % p;
    assert h == q * p + r;
    assert 2 * (q * p) == q * (2 * p);
    DivUnique(x, 2 * p, q, 2 * r + x % 2);
  }

  lemma ModSmall(n: nat, d: nat)
    requires n < d
    ensures Mod(n, d) == n
  {
    DivUnique(n, d, 0, n);
  }

  lemma ModLap(n: nat, d: nat)
    requires d > 0
    ensures Mod(n + d, d) == Mod(n, d)
  {
    ModPlusOne(n, d);
  }

  /** Masking with a power of two minus one takes the remainder. */
  lemma {:induction false} AndMask(x: nat, m: nat)
    ensures And(x, Pow2(m) - 1) == Mod(x, Pow2(m))
  {
    hide Mod;
    if x == 0 {
      ModSmall(x, Pow2(m));
    } else if m > 0 {
      AndMask(x / 2, m - 1);
      ModDouble(x, Pow2(m - 1));
      assert (Pow2(m) - 1) / 2 == Pow2(m - 1) - 1 && (Pow2(m) - 1) % 2 == 1;
    }
  }

  lemma {:induction false} Pow2Add(a: nat, b: nat)
    ensures Pow2(a + b) == Pow2(a) * Pow2(b)
  {
    if a > 0 {
      Pow2Add(a - 1, b);
      assert Pow2(a + b) == 2 * Pow2(a - 1 + b);
      assert 2 * (Pow2(a - 1) * Pow2(b)) == (2 * Pow2(a - 1)) * Pow2(b);
    }
  }

  lemma {:induction false} Pow2Mono(a: nat, b: nat)
    requires a <= b
    ensures Pow2(a) <= Pow2(b)
  {
    if a < b { Pow2Mono(a, b - 1); }
  }

  /** The number of binary digits: 64 minus the count of leading zeros. */
  function BitLength(x: nat): nat {
    if x == 0 then 0 else 1 + BitLength(x / 2)
  }

  lemma {:induction false} BitLengthBounds(x: nat)
    ensures x < Pow2(BitLength(x))
    ensures x > 0 ==> BitLength(x) > 0 && Pow2(BitLength(x) - 1) <= x
  {
    if x > 0 { BitLengthBounds(x / 2); }
  }
}
