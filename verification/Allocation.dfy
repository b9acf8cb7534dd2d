/** Allocating bytes with 128-bit products. */
module Allocation {
  import opened Clock

  // The bytes of an observed counter interval are shared out over its pieces.

  const TWO64: int := 0x1_0000_0000_0000_0000

  /** bits.Mul64: the 128-bit product as two words. */
  function Mul64(x: int, y: int): (p: (int, int))
    requires 0 <= x < TWO64 && 0 <= y < TWO64
    ensures 0 <= p.0 < TWO64 && 0 <= p.1 < TWO64
    ensures p.0 * TWO64 + p.1 == x * y
  {
    ProductFits(x, y);
    (x * y / TWO64, x * y % TWO64)
  }

  lemma ProductFits(x: int, y: int)
    requires 0 <= x < TWO64 && 0 <= y < TWO64
    ensures 0 <= x * y < TWO64 * TWO64
  {
    if y > 0 {
      MulStrict(x, TWO64, y);
    }
  }

  lemma MulStrict(x: int, y: int, c: int)
    requires x < y && 0 < c
    ensures x * c < y * c
  {}

  lemma MulMonotone(x: int, y: int, c: int)
    requires x <= y && 0 <= c
    ensures x * c <= y * c
  {}

  /** bits.Div64: panics unless the divisor exceeds the high word. */
  function Div64(hi: int, lo: int, y: int): (r: (int, int))
    requires 0 <= hi < y < TWO64 && 0 <= lo < TWO64
    ensures r.0 * y + r.1 == hi * TWO64 + lo && 0 <= r.1 < y
  {
    ((hi * TWO64 + lo) / y, (hi * TWO64 + lo) % y)
  }

  /** The floor of total * (t - start) / (end - start): what is allocated up to t. */
  function Cumulative(total: int, start: Time, end: Time, t: Time): int
    requires start < end
  {
    total * (t - start) / (end - start)
  }

  /** The allocation of the piece [a, z) of the interval [start, end). */
  function Allocated(total: int, start: Time, end: Time, a: Time, z: Time): (n: int)
    requires 0 <= total <= MAX_INT64
    requires start <= a <= z <= end && start < end && end - start <= MAX_SPAN
    ensures n == Cumulative(total, start, end, z) - Cumulative(total, start, end, a)
    ensures 0 <= n <= total
  {
    PartIsCumulative(total, start, end, z);
    PartIsCumulative(total, start, end, a);
    CumulativeMonotone(total, start, end, a, z);
    Part(total, start, end, z) - Part(total, start, end, a)
  }

  /** One call of the inner closure; its precondition is what keeps Div64 from panicking. */
  function Part(total: int, start: Time, end: Time, t: Time): int
    requires 0 <= total <= MAX_INT64
    requires start <= t <= end && start < end && end - start <= MAX_SPAN
  {
    var p := Mul64(total, t - start);
    DivisorExceedsHighWord(total, t - start, end - start);
    Div64(p.0, p.1, end - start).0
  }

  lemma DivisorExceedsHighWord(total: int, x: int, den: int)
    requires 0 <= total <= MAX_INT64 && 0 <= x <= den <= MAX_SPAN && 0 < den
    ensures Mul64(total, x).0 < den
  {
    var p := Mul64(total, x);
    if p.0 >= den {
      calc {
        den * TWO64;
      <= { MulMonotone(den, p.0, TWO64); }
        p.0 * TWO64;
      <=
        total * x;
      <= { MulMonotone(x, den, total); }
        total * den;
      < { MulStrict(total, TWO64, den); }
        TWO64 * den;
      }
    }
  }

  lemma DivUnique(n: int, d: int, q: int, r: int)
    requires 0 < d && 0 <= r < d && q * d + r == n
    ensures n / d == q
  {
    var e := n / d - q;
    assert n == (n / d) * d + n % d;
    assert e * d == r - n % d;
    if e >= 1 { MulMonotone(1, e, d); }
    if e <= -1 { MulMonotone(e, -1, d); }
  }

  lemma PartIsCumulative(total: int, start: Time, end: Time, t: Time)
    requires 0 <= total <= MAX_INT64
    requires start <= t <= end && start < end && end - start <= MAX_SPAN
    ensures Part(total, start, end, t) == Cumulative(total, start, end, t)
  {
    var p := Mul64(total, t - start);
    DivisorExceedsHighWord(total, t - start, end - start);
    var r := Div64(p.0, p.1, end - start);
    DivUnique(total * (t - start), end - start, r.0, r.1);
  }

  lemma DivMonotone(n: int, m: int, d: int)
    requires n <= m && 0 < d
    ensures n / d <= m / d
  {
    var q, p := n / d, m / d;
    assert m == p * d + m % d && n == q * d + n % d;
    assert (p + 1) * d == p * d + d;
    if p + 1 <= q {
      MulMonotone(p + 1, q, d);
    }
  }

  /** The cumulative allocation starts at nothing, ends at the total and never falls back. */
  lemma CumulativeMonotone(total: int, start: Time, end: Time, a: Time, z: Time)
    requires 0 <= total && start <= a <= z <= end && start < end
    ensures Cumulative(total, start, end, start) == 0
    ensures Cumulative(total, start, end, end) == total
    ensures 0 <= Cumulative(total, start, end, a) <= Cumulative(total, start, end, z) <= total
  {
    var den := end - start;
    DivUnique(total * den, den, total, 0);
    DivUnique(total * 0, den, 0, 0);
    MulMonotone(0, a - start, total);
    MulMonotone(a - start, z - start, total);
    MulMonotone(z - start, den, total);
    DivMonotone(total * 0, total * (a - start), den);
    DivMonotone(total * (a - start), total * (z - start), den);
    DivMonotone(total * (z - start), total * den, den);
  }

  /** The cumulative allocation of an interval as a function of time. */
  function Curve(total: int, start: Time, end: Time): Time -> int
    requires start < end
  {
    t => Cumulative(total, start, end, t)
  }

  /** What a curve over [start, end) allocates to [lo, hi): the reference the
      piecewise allocation is measured against. It never mentions pieces. */
  function Share(c: Time -> int, start: Time, end: Time, lo: Time, hi: Time): int {
    c(Clamp(hi, start, end)) - c(Clamp(lo, start, end))
  }

  /** A range that covers the interval gets the whole total, shares are never
      negative, and adjacent ranges add up. */
  lemma ShareLaws(total: int, start: Time, end: Time, lo: Time, mid: Time, hi: Time)
    requires 0 <= total && start < end && lo <= mid <= hi
    ensures var c := Curve(total, start, end);
            && 0 <= Share(c, start, end, lo, hi) <= total
            && (lo <= start && end <= hi ==> Share(c, start, end, lo, hi) == total)
            && Share(c, start, end, lo, mid) + Share(c, start, end, mid, hi) == Share(c, start, end, lo, hi)
  {
    CumulativeMonotone(total, start, end, Clamp(lo, start, end), Clamp(hi, start, end));
  }
}
