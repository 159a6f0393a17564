/** `getGameStats`: the sum, parity mix and prime count shown beside every generated game. */
module Descriptors {
  import opened Picks

  /** The primes between 1 and 25. */
  const PRIMES: seq<int> := [2, 3, 5, 7, 11, 13, 17, 19, 23]

  datatype GameStats = GameStats(sum: int, even: int, odd: int, prime: int)

  predicate IsOdd(n: int) {
    n % 2 != 0
  }

  predicate IsEven(n: int) {
    !IsOdd(n)
  }

  predicate IsPrime(n: int) {
    n in PRIMES
  }

  /** `numbers.reduce((a, b) => a + b, 0)`. */
  function Sum(numbers: seq<int>): int {
    if numbers == [] then 0 else Sum(numbers[..|numbers| - 1]) + numbers[|numbers| - 1]
  }

  /** `numbers.filter(p).length`. */
  function CountWhere(numbers: seq<int>, p: int -> bool): (n: nat)
    ensures n <= |numbers|
  {
    if numbers == [] then 0
    else CountWhere(numbers[..|numbers| - 1], p) + (if p(numbers[|numbers| - 1]) then 1 else 0)
  }

  function GetGameStats(numbers: seq<int>): (st: GameStats)
    ensures st.even + st.odd == |numbers|
    ensures 0 <= st.odd <= |numbers| && 0 <= st.even <= |numbers|
    ensures 0 <= st.prime <= |numbers|
  {
    var odd := CountWhere(numbers, IsOdd);
    GameStats(Sum(numbers), |numbers| - odd, odd, CountWhere(numbers, IsPrime))
  }

  /** The distinct members of `numbers` that pass `p`. */
  function Passing(numbers: seq<int>, p: int -> bool): set<int> {
    set x | x in numbers && p(x)
  }

  /** On a list without repetitions, the filter count is the number of distinct members passing the test. */
  lemma {:induction false} CountWhereMembers(numbers: seq<int>, p: int -> bool)
    requires StrictlyAscending(numbers)
    ensures CountWhere(numbers, p) == |Passing(numbers, p)|
  {
    if numbers != [] {
      var init, last := numbers[..|numbers| - 1], numbers[|numbers| - 1];
      assert StrictlyAscending(init);
      CountWhereMembers(init, p);
      assert numbers == init + [last];
      assert last !in Passing(init, p) by {
        forall k | 0 <= k < |init| ensures init[k] != last {
          assert init[k] == numbers[k];
        }
      }
      if p(last) {
        assert Passing(numbers, p) == Passing(init, p) + {last};
      } else {
        assert Passing(numbers, p) == Passing(init, p);
      }
    }
  }

  /** A set contained in another is no larger. */
  lemma SubsetCard(a: set<int>, b: set<int>)
    requires a <= b
    ensures |a| <= |b|
  {
    assert b == a + (b - a);
    assert a * (b - a) == {};
  }

  /** The odd numbers, the even numbers and the primes of the universe. */
  const ODD_UNIVERSE: set<int> := {1, 3, 5, 7, 9, 11, 13, 15, 17, 19, 21, 23, 25}
  const EVEN_UNIVERSE: set<int> := {2, 4, 6, 8, 10, 12, 14, 16, 18, 20, 22, 24}
  const PRIME_SET: set<int> := {2, 3, 5, 7, 11, 13, 17, 19, 23}

  lemma ParityClasses(x: int)
    requires InUniverse(x)
    ensures IsOdd(x) ==> x in ODD_UNIVERSE
    ensures IsEven(x) ==> x in EVEN_UNIVERSE
    ensures IsPrime(x) ==> x in PRIME_SET
  {
  }

  /** Members of a list of universe numbers that pass `p` all fall in `bound`: so there are at most `|bound|`. */
  lemma PassingBound(numbers: seq<int>, p: int -> bool, bound: set<int>)
    requires AllInUniverse(numbers)
    requires forall x :: InUniverse(x) && p(x) ==> x in bound
    ensures |Passing(numbers, p)| <= |bound|
  {
    SubsetCard(Passing(numbers, p), bound);
  }

  /** The odd and the even members of a duplicate-free list split it. */
  lemma ParitySplit(numbers: seq<int>)
    requires StrictlyAscending(numbers)
    ensures |Passing(numbers, IsOdd)| + |Passing(numbers, IsEven)| == |numbers|
  {
    var odds, evens := Passing(numbers, IsOdd), Passing(numbers, IsEven);
    AscendingCard(numbers);
    assert Members(numbers) == odds + evens;
    assert odds * evens == {};
  }

  /**
   * For a pick, the descriptors count distinct members: `odd` its odd members, `even` its even
   * members, `prime` its members in PRIMES; so a pick holds at most 13 odd, 12 even and 9 prime numbers.
   */
  lemma PickDescriptors(numbers: seq<int>)
    requires StrictlyAscending(numbers) && AllInUniverse(numbers)
    ensures GetGameStats(numbers).odd == |Passing(numbers, IsOdd)|
    ensures GetGameStats(numbers).even == |Passing(numbers, IsEven)|
    ensures GetGameStats(numbers).prime == |Passing(numbers, IsPrime)|
    ensures GetGameStats(numbers).odd <= 13
    ensures GetGameStats(numbers).even <= 12
    ensures GetGameStats(numbers).prime <= 9
  {
    CountWhereMembers(numbers, IsOdd);
    CountWhereMembers(numbers, IsPrime);
    ParitySplit(numbers);
    UniverseClasses();
    PassingBound(numbers, IsOdd, ODD_UNIVERSE);
    PassingBound(numbers, IsEven, EVEN_UNIVERSE);
    PassingBound(numbers, IsPrime, PRIME_SET);
  }

  lemma OddCard() ensures |ODD_UNIVERSE| == 13 {}
  lemma EvenCard() ensures |EVEN_UNIVERSE| == 12 {}
  lemma PrimeCard() ensures |PRIME_SET| == 9 {}

  lemma UniverseClasses()
    ensures forall x :: InUniverse(x) && IsOdd(x) ==> x in ODD_UNIVERSE
    ensures forall x :: InUniverse(x) && IsEven(x) ==> x in EVEN_UNIVERSE
    ensures forall x :: InUniverse(x) && IsPrime(x) ==> x in PRIME_SET
    ensures |ODD_UNIVERSE| == 13 && |EVEN_UNIVERSE| == 12 && |PRIME_SET| == 9
  {
    OddCard();
    EvenCard();
    PrimeCard();
    forall x | InUniverse(x) {
      ParityClasses(x);
    }
  }

  /**
   * The sum of an ascending pick of `n` numbers lies between 1 + ... + n and
   * (26 - n) + ... + 25; for a full pick of 15, between 120 and 270.
   */
  lemma SumBounds(numbers: seq<int>)
    requires StrictlyAscending(numbers) && AllInUniverse(numbers)
    ensures 2 * Sum(numbers) >= |numbers| * (|numbers| + 1)
    ensures 2 * Sum(numbers) <= |numbers| * (51 - |numbers|)
    ensures |numbers| == PickSize ==> 120 <= Sum(numbers) <= 270
  {
    var n := |numbers|;
    assert n * (2 * (26 - n) + n - 1) == n * (51 - n);
    PrefixSumBounds(numbers, |numbers|);
    assert numbers[..|numbers|] == numbers;
  }

  /** The bounds of `SumBounds`, for the first `k` members. */
  lemma {:induction false} PrefixSumBounds(numbers: seq<int>, k: nat)
    requires StrictlyAscending(numbers) && AllInUniverse(numbers) && k <= |numbers|
    ensures 2 * Sum(numbers[..k]) >= k * (k + 1)
    ensures 2 * Sum(numbers[..k]) <= k * (2 * (26 - |numbers|) + k - 1)
  {
    if k > 0 {
      PrefixSumBounds(numbers, k - 1);
      assert numbers[..k][..k - 1] == numbers[..k - 1];
      AscendingAtLeast(numbers, k - 1);
      AscendingAtMost(numbers, k - 1);
      SumStep(k, 26 - |numbers|, Sum(numbers[..k - 1]), numbers[k - 1]);
    }
  }

  /** One step of `PrefixSumBounds`: adding the `k`-th member, which lies in [k, low + k - 1]. */
  lemma SumStep(k: int, low: int, before: int, x: int)
    requires k >= 1
    requires 2 * before >= (k - 1) * k
    requires 2 * before <= (k - 1) * (2 * low + k - 2)
    requires k <= x <= low + k - 1
    ensures 2 * (before + x) >= k * (k + 1)
    ensures 2 * (before + x) <= k * (2 * low + k - 1)
  {
    assert k * (k + 1) == (k - 1) * k + 2 * k;
    assert k * (2 * low + k - 1) == (k - 1) * (2 * low + k - 2) + 2 * (low + k - 1);
  }

  /** The member at index `i` of an ascending list of universe numbers is at least `i + 1`. */
  lemma {:induction false} AscendingAtLeast(numbers: seq<int>, i: nat)
    requires StrictlyAscending(numbers) && AllInUniverse(numbers) && i < |numbers|
    ensures numbers[i] >= i + 1
  {
    if i > 0 {
      AscendingAtLeast(numbers, i - 1);
    }
  }

  /** ... and at most `25 - (|numbers| - 1 - i)`. */
  lemma {:induction false} AscendingAtMost(numbers: seq<int>, i: nat)
    requires StrictlyAscending(numbers) && AllInUniverse(numbers) && i < |numbers|
    ensures numbers[i] <= 26 - |numbers| + i
    decreases |numbers| - i
  {
    if i < |numbers| - 1 {
      AscendingAtMost(numbers, i + 1);
    }
  }
}
