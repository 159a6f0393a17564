/**
 * `calculateStats`: frequency of every number over the draw history, the (simulated) delay of
 * every number, and the hot and cold numbers taken from one ranking by frequency.
 */
module Statistics {
  import opened Picks
  import opened Sampler
  import opened Descriptors

  /**
   * The draw history, most recent first. The engine's only history is a module constant of
   * 20 random draws of 15 distinct universe numbers; the statistics need it non-empty (the
   * delay reads its first draw) and made of universe numbers (every number counted has a key).
   */
  predicate ValidHistory(history: seq<seq<int>>) {
    |history| > 0 && forall g :: 0 <= g < |history| ==> AllInUniverse(history[g])
  }

  /** Every draw has the 15 numbers of a full draw. */
  predicate FullDraws(history: seq<seq<int>>) {
    forall g :: 0 <= g < |history| ==> |history[g]| == PickSize
  }

  /** The keys 1..25 of a frequency or delay record. */
  predicate Covers(m: map<int, int>) {
    forall n :: 1 <= n <= 25 ==> n in m
  }

  // ---------------------------------------------------------------- frequency

  /** How often `n` occurs in one draw. */
  function Count(draw: seq<int>, n: int): nat {
    CountWhere(draw, x => x == n)
  }

  /** How often `n` occurs over the whole history. */
  function Occurrences(history: seq<seq<int>>, n: int): nat {
    if history == [] then 0
    else Occurrences(history[..|history| - 1], n) + Count(history[|history| - 1], n)
  }

  /** The frequency record `calculateStats` builds: key n holds the occurrences of n. */
  function Frequencies(history: seq<seq<int>>): (freq: map<int, int>)
    ensures Covers(freq)
  {
    map n | 1 <= n <= 25 :: Occurrences(history, n)
  }

  /** The number of entries in the history, all draws together. */
  function Entries(history: seq<seq<int>>): nat {
    if history == [] then 0 else Entries(history[..|history| - 1]) + |history[|history| - 1]|
  }

  /** The sum of the values of `m` at keys 1..k. */
  function TotalUpTo(m: map<int, int>, k: int): int
    requires Covers(m)
    decreases k
  {
    if k < 1 then 0 else TotalUpTo(m, k - 1) + (if k <= 25 then m[k] else 0)
  }

  /** The occurrences in one draw of the numbers 1..k. */
  function CountUpTo(draw: seq<int>, k: int): nat
    decreases k
  {
    if k < 1 then 0 else CountUpTo(draw, k - 1) + Count(draw, k)
  }

  /** The occurrences over the history of the numbers 1..k. */
  function OccurrencesUpTo(history: seq<seq<int>>, k: int): nat
    decreases k
  {
    if k < 1 then 0 else OccurrencesUpTo(history, k - 1) + Occurrences(history, k)
  }

  lemma {:induction false} NothingCounted(draw: seq<int>, history: seq<seq<int>>, k: int)
    requires draw == [] && history == []
    ensures CountUpTo(draw, k) == 0 && OccurrencesUpTo(history, k) == 0
    decreases k
  {
    if k >= 1 {
      NothingCounted(draw, history, k - 1);
    }
  }

  lemma {:induction false} CountUpToSnoc(draw: seq<int>, x: int, k: int)
    ensures CountUpTo(draw + [x], k) == CountUpTo(draw, k) + (if 1 <= x <= k then 1 else 0)
    decreases k
  {
    assert (draw + [x])[..|draw|] == draw;
    if k >= 1 {
      CountUpToSnoc(draw, x, k - 1);
    }
  }

  /** Counting each number 1..25 of a draw of universe numbers counts every entry once. */
  lemma {:induction false} CountUpToAll(draw: seq<int>)
    requires AllInUniverse(draw)
    ensures CountUpTo(draw, 25) == |draw|
  {
    if draw == [] {
      NothingCounted(draw, [], 25);
    } else {
      var init, last := draw[..|draw| - 1], draw[|draw| - 1];
      assert draw == init + [last];
      assert forall k :: 0 <= k < |init| ==> init[k] == draw[k];
      assert InUniverse(last);
      CountUpToAll(init);
      CountUpToSnoc(init, last, 25);
    }
  }

  lemma {:induction false} OccurrencesUpToSnoc(history: seq<seq<int>>, k: int)
    requires history != []
    ensures OccurrencesUpTo(history, k)
         == OccurrencesUpTo(history[..|history| - 1], k) + CountUpTo(history[|history| - 1], k)
    decreases k
  {
    if k >= 1 {
      OccurrencesUpToSnoc(history, k - 1);
    }
  }

  lemma {:induction false} OccurrencesUpToAll(history: seq<seq<int>>)
    requires forall g :: 0 <= g < |history| ==> AllInUniverse(history[g])
    ensures OccurrencesUpTo(history, 25) == Entries(history)
  {
    if history == [] {
      NothingCounted([], history, 25);
    } else {
      var init := history[..|history| - 1];
      assert forall g :: 0 <= g < |init| ==> init[g] == history[g];
      OccurrencesUpToAll(init);
      OccurrencesUpToSnoc(history, 25);
      CountUpToAll(history[|history| - 1]);
      assert Entries(history) == Entries(init) + |history[|history| - 1]|;
    }
  }

  lemma {:induction false} TotalOfFrequencies(history: seq<seq<int>>, k: int)
    requires k <= 25
    ensures TotalUpTo(Frequencies(history), k) == OccurrencesUpTo(history, k)
    decreases k
  {
    if k >= 1 {
      TotalOfFrequencies(history, k - 1);
    }
  }

  /**
   * The frequencies sum to the number of entries in the history: 15 per draw when every draw
   * is full.
   */
  lemma FrequencyTotal(history: seq<seq<int>>)
    requires forall g :: 0 <= g < |history| ==> AllInUniverse(history[g])
    ensures TotalUpTo(Frequencies(history), 25) == Entries(history)
    ensures FullDraws(history) ==> TotalUpTo(Frequencies(history), 25) == PickSize * |history|
  {
    TotalOfFrequencies(history, 25);
    OccurrencesUpToAll(history);
    if FullDraws(history) {
      FullEntries(history);
    }
  }

  lemma {:induction false} FullEntries(history: seq<seq<int>>)
    requires FullDraws(history)
    ensures Entries(history) == PickSize * |history|
  {
    if history != [] {
      var init := history[..|history| - 1];
      assert forall g :: 0 <= g < |init| ==> init[g] == history[g];
      FullEntries(init);
    }
  }

  // ---------------------------------------------------------------- delay

  /**
   * How many numbers below `n` are missing from the latest draw: the number of
   * `Math.random` values the delay loop has used when it reaches `n`.
   */
  function Misses(latest: seq<int>, n: int): (k: nat)
    ensures n >= 1 ==> k <= n - 1
    decreases n
  {
    if n <= 1 then 0 else Misses(latest, n - 1) + (if n - 1 in latest then 0 else 1)
  }

  /** The numbers from 1 up to, not including, `n` that the latest draw lacks. */
  function MissingBelow(latest: seq<int>, n: int): set<int> {
    set m | 1 <= m < n && m !in latest
  }

  /** The delay loop draws one random value per number missing from the latest draw, in ascending order. */
  lemma {:induction false} MissesCount(latest: seq<int>, n: int)
    ensures Misses(latest, n) == |MissingBelow(latest, n)|
    decreases n
  {
    if n <= 1 {
      assert MissingBelow(latest, n) == {};
    } else {
      MissesCount(latest, n - 1);
      if n - 1 in latest {
        assert MissingBelow(latest, n) == MissingBelow(latest, n - 1);
      } else {
        assert MissingBelow(latest, n) == MissingBelow(latest, n - 1) + {n - 1};
      }
    }
  }

  /** `Math.floor(Math.random() * 5) + 1`: the simulated delay of a number. */
  function DelayDraw(rnd: real): (k: int)
    requires 0.0 <= rnd < 1.0
    ensures 1 <= k <= 5
  {
    (rnd * 5.0).Floor + 1
  }

  /**
   * The delay record: 0 for the numbers of the latest draw, a simulated value for the others
   * (the k-th number missing from it takes the k-th random value).
   */
  function Delays(latest: seq<int>, random: nat -> real): (delay: map<int, int>)
    requires ValidRandom(random)
    ensures Covers(delay)
  {
    map n | 1 <= n <= 25 :: DelayOf(latest, random, n)
  }

  /** The delay of `n`: 0 exactly when `n` is in the latest draw, otherwise 1..5. */
  function DelayOf(latest: seq<int>, random: nat -> real, n: int): (d: int)
    requires ValidRandom(random)
    ensures d == 0 <==> n in latest
    ensures n !in latest ==> 1 <= d <= 5
  {
    if n in latest then 0 else DelayDraw(random(Misses(latest, n)))
  }

  // ---------------------------------------------------------------- ranking

  /** Every member of `s` has a frequency. */
  predicate Keyed(s: seq<int>, freq: map<int, int>) {
    forall i :: 0 <= i < |s| ==> s[i] in freq
  }

  lemma KeyedPermutation(a: seq<int>, b: seq<int>, freq: map<int, int>)
    requires multiset(a) == multiset(b) && Keyed(b, freq)
    ensures Keyed(a, freq)
  {
    forall i | 0 <= i < |a| ensures a[i] in freq {
      assert a[i] in multiset(b);
    }
  }

  /** `a` comes before `b`: it is more frequent, or as frequent and smaller. */
  predicate Precedes(freq: map<int, int>, a: int, b: int)
    requires a in freq && b in freq
  {
    freq[a] > freq[b] || (freq[a] == freq[b] && a < b)
  }

  predicate RankedBy(r: seq<int>, freq: map<int, int>) {
    Keyed(r, freq) && forall i, j :: 0 <= i < j < |r| ==> Precedes(freq, r[i], r[j])
  }

  /**
   * One step of the stable sort with comparator `(a, b) => freq[b] - freq[a]`: `x`, later in
   * the input than every member of `s`, goes after every member at least as frequent.
   */
  function InsertStable(s: seq<int>, x: int, freq: map<int, int>): (r: seq<int>)
    requires Keyed(s, freq) && x in freq
    ensures multiset(r) == multiset(s) + multiset{x}
  {
    if s == [] then [x]
    else if freq[s[|s| - 1]] >= freq[x] then s + [x]
    else
      var init := s[..|s| - 1];
      assert s == init + [s[|s| - 1]];
      InsertStable(init, x, freq) + [s[|s| - 1]]
  }

  /** `sort((a, b) => freq[b] - freq[a])`, stable, as `Array.prototype.sort` is. */
  function StableSortByFreq(s: seq<int>, freq: map<int, int>): (r: seq<int>)
    requires Keyed(s, freq)
    ensures multiset(r) == multiset(s)
  {
    if s == [] then []
    else
      var init := s[..|s| - 1];
      assert s == init + [s[|s| - 1]];
      var sorted := StableSortByFreq(init, freq);
      KeyedPermutation(sorted, init, freq);
      InsertStable(sorted, s[|s| - 1], freq)
  }

  /** The keys of the frequency record in the order `Object.entries` lists them: 1..25. */
  function UniverseList(): (u: seq<int>)
    ensures |u| == 25 && StrictlyAscending(u) && AllInUniverse(u)
    ensures forall n :: n in u <==> InUniverse(n)
  {
    var u := seq(25, i => i + 1);
    assert forall n :: InUniverse(n) ==> u[n - 1] == n;
    u
  }

  /** The numbers 1..25 by decreasing frequency, as `sortedByFreq` holds them. */
  function Ranking(freq: map<int, int>): seq<int>
    requires Covers(freq)
  {
    StableSortByFreq(UniverseList(), freq)
  }

  /** A ranking followed by a number that every member precedes is a ranking. */
  lemma RankedSnoc(s: seq<int>, y: int, freq: map<int, int>)
    requires RankedBy(s, freq) && y in freq
    requires forall i :: 0 <= i < |s| ==> Precedes(freq, s[i], y)
    ensures RankedBy(s + [y], freq)
  {
    var r := s + [y];
    forall i, j | 0 <= i < j < |r| ensures Precedes(freq, r[i], r[j]) {
      if j < |s| {
        assert r[i] == s[i] && r[j] == s[j];
      }
    }
  }

  lemma {:induction false} InsertRanked(s: seq<int>, x: int, freq: map<int, int>)
    requires RankedBy(s, freq) && x in freq
    requires forall i :: 0 <= i < |s| ==> s[i] < x
    ensures RankedBy(InsertStable(s, x, freq), freq)
  {
    if s == [] {
    } else if freq[s[|s| - 1]] >= freq[x] {
      forall i | 0 <= i < |s| ensures Precedes(freq, s[i], x) {
        if i < |s| - 1 {
          assert Precedes(freq, s[i], s[|s| - 1]);
        }
      }
      RankedSnoc(s, x, freq);
    } else {
      var init, last := s[..|s| - 1], s[|s| - 1];
      assert RankedBy(init, freq);
      InsertRanked(init, x, freq);
      var head := InsertStable(init, x, freq);
      forall i | 0 <= i < |head| ensures Precedes(freq, head[i], last) {
        assert head[i] in multiset(head);
        if head[i] != x {
          assert head[i] in multiset(init);
          var k :| 0 <= k < |init| && init[k] == head[i];
          assert Precedes(freq, s[k], s[|s| - 1]);
        }
      }
      RankedSnoc(head, last, freq);
    }
  }

  /** Sorting an ascending list stably by frequency orders it by (frequency desc, number asc). */
  lemma {:induction false} StableSortRanked(s: seq<int>, freq: map<int, int>)
    requires Keyed(s, freq) && StrictlyAscending(s)
    ensures RankedBy(StableSortByFreq(s, freq), freq)
  {
    if s != [] {
      var init, last := s[..|s| - 1], s[|s| - 1];
      StableSortRanked(init, freq);
      var sorted := StableSortByFreq(init, freq);
      forall i | 0 <= i < |sorted| ensures sorted[i] < last {
        assert sorted[i] in multiset(sorted);
        assert sorted[i] in multiset(init);
      }
      InsertRanked(sorted, last, freq);
    }
  }

  /** A ranking holds no number twice. */
  lemma RankedDistinct(r: seq<int>, freq: map<int, int>)
    requires RankedBy(r, freq)
    ensures forall i, j :: 0 <= i < j < |r| ==> r[i] != r[j]
  {
    forall i, j | 0 <= i < j < |r| ensures r[i] != r[j] {
      assert Precedes(freq, r[i], r[j]);
    }
  }

  /**
   * The ranking lists each number 1..25 exactly once, ordered by decreasing frequency with
   * ties broken by increasing number.
   */
  lemma RankingIsOrdered(freq: map<int, int>)
    requires Covers(freq)
    ensures |Ranking(freq)| == 25
    ensures multiset(Ranking(freq)) == multiset(UniverseList())
    ensures forall n :: n in Ranking(freq) <==> InUniverse(n)
    ensures RankedBy(Ranking(freq), freq)
  {
    var u := UniverseList();
    StableSortRanked(u, freq);
    var r := Ranking(freq);
    assert |r| == |multiset(r)| == |multiset(u)| == 25;
    forall n ensures n in r <==> InUniverse(n) {
      assert n in r <==> n in multiset(r);
      assert n in u <==> n in multiset(u);
    }
  }

  /**
   * The ranking is the only list of the numbers 1..25 in that order: whichever stable sort
   * produced `sortedByFreq`, it produced this list.
   */
  lemma {:induction false} RankedUnique(a: seq<int>, b: seq<int>, freq: map<int, int>)
    requires RankedBy(a, freq) && RankedBy(b, freq)
    requires multiset(a) == multiset(b)
    ensures a == b
  {
    if a != [] {
      RankedHead(a, b, freq);
      TailPermutation(a, b);
      RankedTail(a, freq);
      RankedTail(b, freq);
      RankedUnique(a[1..], b[1..], freq);
      assert a == [a[0]] + a[1..] && b == [b[0]] + b[1..];
    }
  }

  /** Two rankings of the same numbers start with the same number. */
  lemma RankedHead(a: seq<int>, b: seq<int>, freq: map<int, int>)
    requires RankedBy(a, freq) && RankedBy(b, freq)
    requires multiset(a) == multiset(b) && a != []
    ensures b != [] && a[0] == b[0]
  {
    assert |b| == |a| by { assert |multiset(a)| == |multiset(b)|; }
    assert a[0] in multiset(b);
    assert b[0] in multiset(a);
    var i :| 0 <= i < |a| && a[i] == b[0];
    var j :| 0 <= j < |b| && b[j] == a[0];
  }

  lemma TailPermutation(a: seq<int>, b: seq<int>)
    requires a != [] && b != [] && a[0] == b[0] && multiset(a) == multiset(b)
    ensures multiset(a[1..]) == multiset(b[1..])
  {
    assert a == [a[0]] + a[1..] && b == [b[0]] + b[1..];
    assert multiset(a[1..]) == multiset(a) - multiset{a[0]};
    assert multiset(b[1..]) == multiset(b) - multiset{b[0]};
  }

  lemma RankedTail(a: seq<int>, freq: map<int, int>)
    requires RankedBy(a, freq) && a != []
    ensures RankedBy(a[1..], freq)
  {
    var t := a[1..];
    assert forall i :: 0 <= i < |t| ==> t[i] == a[i + 1];
  }

  // ---------------------------------------------------------------- hot and cold

  /** `sortedByFreq.slice(0, 10)`. */
  function HotNumbers(freq: map<int, int>): (hot: seq<int>)
    requires Covers(freq)
    ensures |hot| == 10 && AllInUniverse(hot)
  {
    RankingIsOrdered(freq);
    assert forall i :: 0 <= i < 25 ==> Ranking(freq)[i] in Ranking(freq);
    Ranking(freq)[..10]
  }

  /** `sortedByFreq.slice(-5)`. */
  function ColdNumbers(freq: map<int, int>): (cold: seq<int>)
    requires Covers(freq)
    ensures |cold| == 5 && AllInUniverse(cold)
  {
    RankingIsOrdered(freq);
    Ranking(freq)[25 - 5..]
  }

  /**
   * Hot and cold numbers are ten and five universe numbers, neither list repeats a number,
   * the two are disjoint, and no hot number is less frequent than a cold one.
   */
  lemma HotAndCold(freq: map<int, int>)
    requires Covers(freq)
    ensures |HotNumbers(freq)| == 10 && |ColdNumbers(freq)| == 5
    ensures AllInUniverse(HotNumbers(freq)) && AllInUniverse(ColdNumbers(freq))
    ensures forall i, j :: 0 <= i < j < 10 ==> HotNumbers(freq)[i] != HotNumbers(freq)[j]
    ensures forall i, j :: 0 <= i < j < 5 ==> ColdNumbers(freq)[i] != ColdNumbers(freq)[j]
    ensures Members(HotNumbers(freq)) !! Members(ColdNumbers(freq))
    ensures forall h, c :: h in HotNumbers(freq) && c in ColdNumbers(freq) ==> freq[h] >= freq[c]
  {
    RankingIsOrdered(freq);
    var r := Ranking(freq);
    RankedDistinct(r, freq);
    var hot, cold := HotNumbers(freq), ColdNumbers(freq);
    forall i, j | 0 <= i < j < 5 ensures cold[i] != cold[j] {
      assert cold[i] == r[20 + i] && cold[j] == r[20 + j];
    }
    forall i | 0 <= i < |r| ensures InUniverse(r[i]) {
      assert r[i] in r;
    }
    forall h, c | h in hot && c in cold ensures h != c && freq[h] >= freq[c] {
      var i :| 0 <= i < 10 && hot[i] == h;
      var j :| 0 <= j < 5 && cold[j] == c;
      assert r[i] == h && r[20 + j] == c;
      assert Precedes(freq, r[i], r[20 + j]);
    }
  }

  // ---------------------------------------------------------------- calculateStats

  datatype StatsSnapshot = StatsSnapshot(
    hotNumbers: seq<int>,
    coldNumbers: seq<int>,
    frequency: map<int, int>,
    delay: map<int, int>)

  /** A record with the keys 1..25, each holding 0. */
  ghost predicate Zeroed(m: map<int, int>) {
    (forall n :: n in m <==> InUniverse(n)) && forall n :: n in m ==> m[n] == 0
  }

  /** `calculateStats`, over the history and the `Math.random` values of the delay loop. */
  method CalculateStats(history: seq<seq<int>>, random: nat -> real) returns (stats: StatsSnapshot)
    requires ValidHistory(history) && ValidRandom(random)
    ensures stats.frequency == Frequencies(history)
    ensures stats.delay == Delays(history[0], random)
    ensures forall n :: InUniverse(n) ==> (stats.delay[n] == 0 <==> n in history[0])
    ensures forall n :: InUniverse(n) && n !in history[0] ==> 1 <= stats.delay[n] <= 5
    ensures stats.hotNumbers == HotNumbers(stats.frequency)
    ensures stats.coldNumbers == ColdNumbers(stats.frequency)
  {
    var frequency: map<int, int> := map[];
    var delay: map<int, int> := map[];
    for i := 1 to 26
      invariant forall n :: n in frequency <==> 1 <= n < i
      invariant forall n :: n in delay <==> 1 <= n < i
      invariant forall n :: n in frequency ==> frequency[n] == 0
      invariant forall n :: n in delay ==> delay[n] == 0
    {
      frequency := frequency[i := 0];
      delay := delay[i := 0];
    }
    frequency := CountFrequencies(history, frequency);
    delay := SimulateDelays(history[0], random, delay);

    var sortedByFreq := Ranking(frequency);
    RankingIsOrdered(frequency);
    stats := StatsSnapshot(sortedByFreq[..10], sortedByFreq[|sortedByFreq| - 5..], frequency, delay);
  }

  /** The counting loop of `calculateStats`: one increment per entry of every draw. */
  method CountFrequencies(history: seq<seq<int>>, zeroed: map<int, int>) returns (frequency: map<int, int>)
    requires forall g :: 0 <= g < |history| ==> AllInUniverse(history[g])
    requires Zeroed(zeroed)
    ensures frequency == Frequencies(history)
  {
    frequency := zeroed;
    for g := 0 to |history|
      invariant forall n :: n in frequency <==> InUniverse(n)
      invariant forall n :: InUniverse(n) ==> frequency[n] == Occurrences(history[..g], n)
    {
      var game := history[g];
      assert history[..g + 1][..g] == history[..g];
      for j := 0 to |game|
        invariant forall n :: n in frequency <==> InUniverse(n)
        invariant forall n :: InUniverse(n) ==>
          frequency[n] == Occurrences(history[..g], n) + Count(game[..j], n)
      {
        assert game[..j + 1][..j] == game[..j];
        assert InUniverse(game[j]);
        frequency := frequency[game[j] := frequency[game[j]] + 1];
      }
      assert game[..|game|] == game;
    }
    assert history[..|history|] == history;
  }

  /** The delay loop of `calculateStats`: a random delay for each number missing from the latest draw. */
  method SimulateDelays(lastGame: seq<int>, random: nat -> real, zeroed: map<int, int>) returns (delay: map<int, int>)
    requires ValidRandom(random) && Zeroed(zeroed)
    ensures delay == Delays(lastGame, random)
  {
    delay := zeroed;
    var calls := 0;
    for i := 1 to 26
      invariant forall n :: n in delay <==> InUniverse(n)
      invariant calls == Misses(lastGame, i)
      invariant forall n :: 1 <= n < i ==> delay[n] == DelayOf(lastGame, random, n)
      invariant forall n :: i <= n <= 25 ==> delay[n] == 0
    {
      if i !in lastGame {
        delay := delay[i := DelayDraw(random(calls))];
        calls := calls + 1;
      }
    }
    assert forall n :: n in delay ==> delay[n] == Delays(lastGame, random)[n];
  }
}
