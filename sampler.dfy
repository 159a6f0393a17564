/**
 * The engine's sources of randomness: the sine-based seeded generator, the day seed taken
 * from the calendar date, and the shared draw counter of the smart generator.
 *
 * `Math.sin` and `Math.random` are not modelled: the first is a parameter `sin`, any function
 * from seeds to reals, the second a stream `random` of values in [0, 1) indexed by call number.
 */
module Sampler {

  /** `seededRandom`: the fractional part of `sin(seed) * 10000`. */
  function SeededRandom(sin: int -> real, seed: int): (r: real)
    ensures 0.0 <= r < 1.0
  {
    var x := sin(seed) * 10000.0;
    x - x.Floor as real
  }

  /** `Math.floor(rnd * 25) + 1`: a value of [0, 1) turned into a number of the universe. */
  function ToBall(rnd: real): (n: int)
    requires 0.0 <= rnd < 1.0
    ensures 1 <= n <= 25
  {
    (rnd * 25.0).Floor + 1
  }

  /** `Math.floor(rnd * len)`: a value of [0, 1) turned into an index of a list of `len` items. */
  function ScaledIndex(rnd: real, len: nat): (k: nat)
    requires 0.0 <= rnd < 1.0 && len > 0
    ensures k < len
  {
    assert rnd * len as real < len as real;
    (rnd * len as real).Floor
  }

  /** A calendar date as `Date` reports it: `month` is 0-based, as `getMonth()` returns it. */
  datatype Date = Date(day: int, month: int, year: int)

  predicate ValidDate(d: Date) {
    1 <= d.day <= 31 && 0 <= d.month <= 11 && 0 <= d.year
  }

  /** `getDate() + (getMonth() + 1) * 100 + getFullYear() * 10000`, shared by both generators. */
  function DailySeed(d: Date): int {
    d.day + (d.month + 1) * 100 + d.year * 10000
  }

  /** Reads the date back out of a day seed. */
  function SeedDate(seed: int): Date {
    Date(seed % 100, seed / 100 % 100 - 1, seed / 10000)
  }

  /** The day seed keeps the whole date: it can be decoded back. */
  lemma DailySeedRoundTrip(d: Date)
    requires ValidDate(d)
    ensures SeedDate(DailySeed(d)) == d
  {
    var seed := DailySeed(d);
    var low := d.day + (d.month + 1) * 100;
    assert 0 <= low < 10000;
    assert seed == d.year * 10000 + low;
    assert seed / 10000 == d.year && seed % 10000 == low;
    assert seed / 100 == d.year * 100 + (d.month + 1);
    assert seed % 100 == d.day;
  }

  /** Different dates give different day seeds. */
  lemma DailySeedInjective(a: Date, b: Date)
    requires ValidDate(a) && ValidDate(b)
    requires DailySeed(a) == DailySeed(b)
    ensures a == b
  {
    DailySeedRoundTrip(a);
    DailySeedRoundTrip(b);
  }

  /**
   * The day after `d` within its month has the next seed: the seeds of consecutive days are
   * consecutive, so the seeds one day counts up through overlap the next day's.
   */
  lemma NextDaySeed(d: Date)
    requires ValidDate(d) && d.day < 31
    ensures ValidDate(Date(d.day + 1, d.month, d.year))
    ensures DailySeed(Date(d.day + 1, d.month, d.year)) == DailySeed(d) + 1
  {
  }

  /** A stream of `Math.random` values: every value lies in [0, 1). */
  ghost predicate ValidRandom(random: nat -> real) {
    forall k: nat :: 0.0 <= random(k) < 1.0
  }

  /**
   * Where `getNextRandom` takes its values from: the seeded generator counting up from
   * `seedBase` (free users), or `Math.random` (VIP users).
   */
  datatype Source = Seeded(sin: int -> real, seedBase: int) | Entropy(random: nat -> real)

  ghost predicate ValidSource(src: Source) {
    src.Entropy? ==> ValidRandom(src.random)
  }

  /** The value returned by the call that follows `calls` earlier calls. */
  function NextValue(src: Source, calls: nat): (r: real)
    requires ValidSource(src)
    ensures 0.0 <= r < 1.0
  {
    match src
    case Seeded(sin, seedBase) => SeededRandom(sin, seedBase + calls)
    case Entropy(random) => random(calls)
  }

  /**
   * The `getNextRandom` closure with the `seedCounter` it shares across all games of one
   * generation. For a seeded source, `seedCounter` is `source.seedBase + calls`.
   */
  class RandomStream {
    const source: Source
    var calls: nat

    ghost predicate Valid() {
      ValidSource(source)
    }

    constructor (source: Source)
      requires ValidSource(source)
      ensures Valid() && this.source == source && calls == 0
    {
      this.source := source;
      calls := 0;
    }

    method Next() returns (r: real)
      requires Valid()
      modifies this`calls
      ensures r == NextValue(source, old(calls)) && 0.0 <= r < 1.0
      ensures calls == old(calls) + 1
    {
      r := NextValue(source, calls);
      calls := calls + 1;
    }
  }
}
