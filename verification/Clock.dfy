/** Instants are integer nanoseconds since the Unix epoch. Go's zero time.Time is
    the first instant of year 1; the program uses it as "no time". Stamps in tables are
    whole milliseconds, rounded down before the epoch as well, and an instant survives the
    way into a stamp and back when it is a whole minute other than the epoch itself. */
module Clock {

  type Time = int

  const MINUTE: int := 60_000_000_000
  const MAX_SPAN: int := 32 * 24 * 60 * MINUTE
  const ZERO_TIME: Time := -62_135_596_800 * 1_000_000_000
  const MAX_INT64: int := 0x7FFF_FFFF_FFFF_FFFF

  /** Go's Time.UnixMilli rounds down, before the epoch as well. */
  function UnixMilli(t: Time): int { t / 1_000_000 }

  function Millis(t: Time): int { if t == ZERO_TIME then 0 else UnixMilli(t) }

  function FromMillis(n: int): Time { if n == 0 then ZERO_TIME else n * 1_000_000 }

  function TruncateMinute(t: Time): Time { t - t % 60_000_000_000 }

  function Min(a: int, b: int): int { if a <= b then a else b }

  function Max(a: int, b: int): int { if a <= b then b else a }

  /** The point of [lo, hi] nearest to t. */
  function Clamp(t: int, lo: int, hi: int): int { Max(lo, Min(t, hi)) }

  lemma MilliMonotone(s: Time, t: Time)
    requires s <= t
    ensures UnixMilli(s) <= UnixMilli(t)
  {}

  lemma MinuteHasWholeMillis(t: Time)
    requires t % 60_000_000_000 == 0
    ensures UnixMilli(t) * 1_000_000 == t
    ensures UnixMilli(t) % 60_000 == 0
  {
  }

  /** Minute-aligned instants are ordered as their millisecond stamps are. */
  lemma AlignedMillisOrder(s: Time, t: Time)
    requires s % 60_000_000_000 == 0 && t % 60_000_000_000 == 0
    ensures s <= t <==> UnixMilli(s) <= UnixMilli(t)
    ensures s < t <==> UnixMilli(s) < UnixMilli(t)
  {
    MinuteHasWholeMillis(s);
    MinuteHasWholeMillis(t);
  }

  lemma TruncationHolds(t: Time)
    ensures TruncateMinute(t) <= t < TruncateMinute(t) + 60_000_000_000
    ensures TruncateMinute(t) % 60_000_000_000 == 0
  {
    assert TruncateMinute(t) == (t / 60_000_000_000) * 60_000_000_000;
  }

  lemma TruncationShared(t: Time, u: Time)
    requires TruncateMinute(t) <= u < TruncateMinute(t) + 60_000_000_000
    ensures TruncateMinute(u) == TruncateMinute(t)
  {
    var q := t / 60_000_000_000;
    assert TruncateMinute(t) == q * 60_000_000_000;
    assert u / 60_000_000_000 == q;
  }

  lemma MillisOfSpan(a: Time, z: Time)
    requires a <= z
    ensures 0 <= UnixMilli(z - a) <= UnixMilli(z) - UnixMilli(a)
  {}
}
