/** Reconnect backoff: the capped doubling of nextBackoff, its jitter, and what a row of failed dials
    sleeps in total. Durations are integers of nanoseconds. */
module Backoff {

  const MILLISECOND: nat := 1_000_000
  const SECOND: nat := 1_000_000_000

  datatype Config = Config(initial: int, max: int, jitter: int)

  const DEFAULTS: Config := Config(500 * MILLISECOND, 30 * SECOND, 250 * MILLISECOND)

  function Pow2(n: nat): (r: nat)
    ensures r >= 1
  {
    if n == 0 then 1 else 2 * Pow2(n - 1)
  }

  function Min(a: int, b: int): int {
    if a < b then a else b
  }

  function Base(c: Config): int {
    if c.initial == 0 then 500 * MILLISECOND else c.initial
  }

  function Cap(c: Config): int {
    if c.max == 0 then 30 * SECOND else c.max
  }

  /** The delay before jitter: the base doubled n times, capped. */
  function Plain(c: Config, n: nat): int {
    Min(Base(c) * Pow2(n), Cap(c))
  }

  function Sleep(c: Config, n: nat, now: nat): int {
    Plain(c, n) + (if c.jitter > 0 then now % c.jitter else 0)
  }

  /** nextBackoff; now is the clock reading the jitter is taken from. */
  method NextBackoff(c: Config, n: nat, now: nat) returns (d: int)
    ensures d == Sleep(c, n, now)
    ensures d == Plain(c, n) + (if c.jitter > 0 then now % c.jitter else 0)
  {
    var base := c.initial;
    if base == 0 {
      base := 500 * MILLISECOND;
    }
    var max := c.max;
    if max == 0 {
      max := 30 * SECOND;
    }
    d := Min(base * Pow2(n), max);
    if c.jitter > 0 {
      d := d + now % c.jitter;
    }
  }

  ghost predicate Sane(c: Config) {
    0 < Base(c) <= Cap(c) && c.jitter > 0
  }

  lemma Doubles(b: int, n: nat)
    ensures b * Pow2(n + 1) == 2 * (b * Pow2(n))
  {
    assert Pow2(n + 1) == 2 * Pow2(n);
    assert b * (2 * Pow2(n)) == 2 * (b * Pow2(n));
  }

  lemma {:induction false} AtLeastBase(b: int, n: nat)
    requires b > 0
    ensures b * Pow2(n) >= b + n
  {
    if n > 0 {
      AtLeastBase(b, n - 1);
      Doubles(b, n - 1);
    }
  }

  /** The jitter is exactly the clock modulo its bound: two delays of one attempt differ as the clocks
      do, modulo the jitter; and without jitter there is none. */
  lemma JitterFollowsClock(c: Config, n: nat, now: nat, later: nat)
    ensures c.jitter > 0 ==> (Sleep(c, n, later) - Sleep(c, n, now) - (later - now)) % c.jitter == 0
    ensures c.jitter > 0 ==> 0 <= Sleep(c, n, now) - Plain(c, n) < c.jitter
    ensures c.jitter <= 0 ==> Sleep(c, n, now) == Plain(c, n)
  {
    if c.jitter > 0 {
      var j, p, q := c.jitter, later / c.jitter, now / c.jitter;
      assert later == p * j + later % j && now == q * j + now % j;
      assert Sleep(c, n, later) - Sleep(c, n, now) - (later - now) == (q - p) * j by {
        assert (q - p) * j == q * j - p * j;
      }
      MultipleModulo(q - p, j);
    }
  }

  lemma MultipleModulo(k: int, j: int)
    requires j > 0
    ensures (k * j) % j == 0
  {
    assert k * j == j * k + 0;
    DivisionUnique(k * j, j, k, 0);
  }

  lemma DivisionUnique(x: int, j: int, q: int, r: int)
    requires j > 0 && 0 <= r < j && x == j * q + r
    ensures x % j == r
  {
    var q', r' := x / j, x % j;
    assert x == j * q' + r';
    assert j * (q - q') == r' - r;
    OutsideOne(j, q - q');
  }

  lemma OutsideOne(j: int, k: int)
    requires j > 0
    ensures k >= 1 ==> j * k >= j
    ensures k <= -1 ==> j * k <= -j
  {
  }

  /** Every delay from the plain one up to just below the jitter above it is taken at some clock reading. */
  lemma EveryDelayOccurs(c: Config, n: nat, d: int) returns (now: nat)
    requires c.jitter > 0 && Plain(c, n) <= d < Plain(c, n) + c.jitter
    ensures now < c.jitter && Sleep(c, n, now) == d
  {
    now := d - Plain(c, n);
    DivisionUnique(now, c.jitter, 0, now);
  }

  /** A setting left at zero means half a second for the base and thirty seconds for the cap. */
  lemma ZeroMeansDefault(jitter: int, initial: int, max: int, n: nat, now: nat)
    ensures Sleep(Config(0, max, jitter), n, now) == Sleep(Config(500_000_000, max, jitter), n, now)
    ensures Sleep(Config(initial, 0, jitter), n, now) == Sleep(Config(initial, 30_000_000_000, jitter), n, now)
  {
  }

  /** Bounds over all attempts: every delay is at least the base and below the cap plus the jitter. */
  lemma SleepBounds(c: Config, n: nat, now: nat)
    requires Sane(c)
    ensures Base(c) <= Plain(c, n) <= Sleep(c, n, now) < Plain(c, n) + c.jitter <= Cap(c) + c.jitter
  {
    AtLeastBase(Base(c), n);
  }

  /** Without jitter the delay never shrinks, and once it has reached the cap it stays there. */
  lemma {:induction false} PlainMonotone(c: Config, n: nat, m: nat)
    requires Sane(c) && n <= m
    ensures Plain(c, n) <= Plain(c, m)
    ensures Plain(c, n) == Cap(c) ==> Plain(c, m) == Cap(c)
    decreases m
  {
    if n < m {
      PlainMonotone(c, n, m - 1);
      Doubles(Base(c), m - 1);
      AtLeastBase(Base(c), m - 1);
    }
  }

  /** The cap is reached, whatever the base. */
  lemma PlainSaturates(c: Config)
    requires Sane(c)
    ensures Plain(c, Cap(c)) == Cap(c)
  {
    AtLeastBase(Base(c), Cap(c));
  }

  // ---- k failed dials in a row ----

  function PlainSum(c: Config, k: nat): int {
    if k == 0 then 0 else PlainSum(c, k - 1) + Plain(c, k - 1)
  }

  /** The sleep before attempts 1..k, where clocks holds the clock reading at each failure. */
  function TotalSleep(c: Config, clocks: seq<nat>): int {
    if clocks == [] then 0
    else TotalSleep(c, clocks[..|clocks| - 1]) + Sleep(c, |clocks| - 1, clocks[|clocks| - 1])
  }

  /** The failing branch of run, taken once per clock reading. */
  method FailInARow(c: Config, clocks: seq<nat>) returns (attempt: nat, slept: int)
    ensures attempt == |clocks| && slept == TotalSleep(c, clocks)
  {
    attempt, slept := 0, 0;
    while attempt < |clocks|
      invariant attempt <= |clocks|
      invariant slept == TotalSleep(c, clocks[..attempt])
    {
      var d := NextBackoff(c, attempt, clocks[attempt]);
      slept := slept + d;
      assert clocks[..attempt + 1][..attempt] == clocks[..attempt];
      attempt := attempt + 1;
    }
    assert clocks[..attempt] == clocks;
  }

  /** k failures in a row sleep at least the plain sum and less than k jitters more. */
  lemma {:induction false} TotalSleepBounds(c: Config, clocks: seq<nat>)
    requires Sane(c)
    ensures PlainSum(c, |clocks|) <= TotalSleep(c, clocks) <= PlainSum(c, |clocks|) + |clocks| * c.jitter
    ensures clocks != [] ==> TotalSleep(c, clocks) < PlainSum(c, |clocks|) + |clocks| * c.jitter
  {
    if clocks != [] {
      var k := |clocks| - 1;
      TotalSleepBounds(c, clocks[..k]);
      SleepBounds(c, k, clocks[k]);
      OneMore(k, c.jitter);
    }
  }

  lemma OneMore(k: nat, j: int)
    ensures (k + 1) * j == k * j + j
  {
  }

  lemma SmallPowers()
    ensures Pow2(0) == 1 && Pow2(1) == 2 && Pow2(2) == 4 && Pow2(3) == 8
    ensures Pow2(4) == 16 && Pow2(5) == 32 && Pow2(6) == 64
  {
    assert Pow2(3) == 2 * Pow2(2) && Pow2(4) == 2 * Pow2(3) && Pow2(5) == 2 * Pow2(4) && Pow2(6) == 2 * Pow2(5);
  }

  lemma DefaultPlain(n: nat)
    ensures Plain(DEFAULTS, n) == if n < 6 then 500 * MILLISECOND * Pow2(n) else 30 * SECOND
  {
    SmallPowers();
    if n < 6 {
      assert n == 0 || n == 1 || n == 2 || n == 3 || n == 4 || n == 5;
    } else {
      assert Sane(DEFAULTS) && Plain(DEFAULTS, 6) == Cap(DEFAULTS);
      PlainMonotone(DEFAULTS, 6, n);
    }
  }

  /** Under the defaults: (2^k - 1) half seconds for the first six failures, then thirty seconds each. */
  lemma {:induction false} DefaultSum(k: nat)
    ensures PlainSum(DEFAULTS, k) ==
      if k <= 6 then (Pow2(k) - 1) * 500_000_000 else 31_500_000_000 + (k - 6) * 30_000_000_000
  {
    if k > 0 {
      DefaultSum(k - 1);
      DefaultPlain(k - 1);
      SmallPowers();
      assert Pow2(k) == 2 * Pow2(k - 1);
    }
  }

  /** Exactly the delays nextBackoff can give under the defaults: half a second doubled n times, or
      thirty seconds from the seventh attempt on, and anything up to just below a quarter second more. */
  lemma DefaultDelays(n: nat, d: int)
    ensures
      var plain := if n < 6 then 500_000_000 * Pow2(n) else 30_000_000_000;
      (exists now: nat :: Sleep(DEFAULTS, n, now) == d) <==> plain <= d < plain + 250_000_000
  {
    DefaultPlain(n);
    if Plain(DEFAULTS, n) <= d < Plain(DEFAULTS, n) + DEFAULTS.jitter {
      var now := EveryDelayOccurs(DEFAULTS, n, d);
    } else {
      forall now: nat
        ensures Sleep(DEFAULTS, n, now) != d
      {
        JitterFollowsClock(DEFAULTS, n, now, now);
      }
    }
  }
}
