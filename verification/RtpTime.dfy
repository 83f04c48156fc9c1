/** RTP media time against the platform's clock (cast/streaming/rtp_time.h). Clock durations count
    microseconds. Conversions round to the nearest integer, halves away from zero; the quotient itself is
    taken exactly, where the code computes it in double precision, and nothing saturates. */
module RtpTime {
  const ONE_SECOND: int := 1_000_000

  function Nearest(num: int, den: int): (r: int)
    requires den > 0
  {
    if num >= 0 then (2 * num + den) / (2 * den) else -((2 * (-num) + den) / (2 * den))
  }

  // Nearest is at most half away, for either sign.
  lemma NearestIsClosest(num: int, den: int)
    requires den > 0
    ensures -den <= 2 * (num - den * Nearest(num, den)) <= den
  {
    var m := if num >= 0 then num else -num;
    var q := (2 * m + den) / (2 * den);
    assert 2 * m + den == 2 * den * q + (2 * m + den) % (2 * den);
    assert 2 * den * q == 2 * (den * q);
    assert den * (-q) == -(den * q);
  }

  function ToDuration(ticks: int, timebase: int): int
    requires timebase > 0
  {
    Nearest(ticks * ONE_SECOND, timebase)
  }

  function FromDuration(duration: int, timebase: int): int
    requires timebase > 0
  {
    Nearest(duration * timebase, ONE_SECOND)
  }

  // Whole numbers convert exactly, so whole seconds do, both ways.
  lemma NearestOfWhole(k: int, den: int)
    requires den > 0
    ensures Nearest(k * den, den) == k
  {
    NearestIsClosest(k * den, den);
    OnlyOneIsClose(k, Nearest(k * den, den), den);
  }

  lemma OnlyOneIsClose(k: int, n: int, den: int)
    requires den > 0 && -den <= 2 * (k * den - den * n) <= den
    ensures n == k
  {
    var d := k - n;
    assert k * den - den * n == d * den;
    if d >= 1 { WholeMultiple(d, den); } else if d <= -1 { WholeMultiple(-d, den); }
  }

  lemma WholeMultiple(d: int, den: int)
    requires d >= 1 && den > 0
    ensures d * den >= den && -d * den == -(d * den)
  {
  }

  lemma SecondsConvertExactly(k: int, timebase: int)
    requires timebase > 0
    ensures FromDuration(k * 1_000_000, timebase) == k * timebase
    ensures ToDuration(k * timebase, timebase) == k * 1_000_000
  {
    NearestOfWhole(k * timebase, ONE_SECOND);
    NearestOfWhole(k * ONE_SECOND, timebase);
    assert (k * 1_000_000) * timebase == (k * timebase) * ONE_SECOND;
    assert (k * timebase) * ONE_SECOND == (k * ONE_SECOND) * timebase;
  }

  // One tick lasts at least one microsecond up to two million ticks a second, and none beyond.
  lemma TickLasts(timebase: int)
    requires timebase > 0
    ensures ToDuration(1, timebase) > 0 <==> timebase <= 2_000_000
    ensures ToDuration(1, timebase) >= 0
    ensures ToDuration(0, timebase) == 0
  {
    QuotientIsPositive(2 * ONE_SECOND + timebase, 2 * timebase);
    QuotientIsPositive(timebase, 2 * timebase);
  }

  lemma QuotientIsPositive(a: int, b: int)
    requires a >= 0 && b > 0
    ensures a / b >= 0 && (a / b > 0 <==> a >= b)
  {
  }
}
