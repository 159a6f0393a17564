/**
 * `generateDailyGame` and `generateSmartGames` with its inner `createGame`: the games the site
 * shows, each a sorted list of distinct universe numbers with its descriptors.
 */
module Generator {
  import opened Picks
  import opened Sampler
  import opened Descriptors
  import opened Statistics

  datatype GameType = Balanced | Hot | Cold | Pattern0 | Daily

  /** The strategies `createGame` accepts. */
  type Strategy = t: GameType | !t.Daily? witness Balanced

  datatype Mode = Standard | Final0

  datatype GeneratedGame = GeneratedGame(id: int, numbers: seq<int>, stats: GameStats, kind: GameType)

  /** The cap on `createGame`'s draw loop. */
  const MaxAttempts := 1000

  /** A hot game replaces its draw by a hot number when a coin exceeds this. */
  const HotBias := 0.3

  /** A final-0 or pattern-0 game drops a number that would close a run of three when a coin exceeds this. */
  const RunSkip := 0.5

  /** The pool of the hot bias, `stats.hotNumbers`: universe numbers, at least one. */
  predicate ValidHotPool(hot: seq<int>) {
    |hot| > 0 && AllInUniverse(hot)
  }

  // ---------------------------------------------------------------- createGame

  /**
   * The state of `createGame`'s loop: the `Set` of numbers so far, the attempts made, and how
   * many values `getNextRandom` has handed out in this generation.
   */
  datatype Draft = Draft(numbers: set<int>, attempts: nat, calls: nat)

  /**
   * The number one pass proposes, and the calls made once it is chosen: a uniform draw; for a
   * hot game, a coin and, when the coin exceeds 0.3, a number of the hot pool in its place.
   */
  function Proposal(strategy: Strategy, hot: seq<int>, src: Source, calls: nat): (p: (int, nat))
    requires ValidSource(src) && ValidHotPool(hot)
    ensures InUniverse(p.0) && calls < p.1 <= calls + 3
  {
    var drawn := ToBall(NextValue(src, calls));
    if strategy != Hot then (drawn, calls + 1)
    else if NextValue(src, calls + 1) > HotBias then (hot[ScaledIndex(NextValue(src, calls + 2), |hot|)], calls + 3)
    else (drawn, calls + 2)
  }

  /** The rule of final-0 mode and the pattern-0 strategy applies, and `num` would close a run of three. */
  predicate ClosesRun(num: int, numbers: set<int>, strategy: Strategy, mode: Mode) {
    (mode == Final0 || strategy == Pattern0) && num - 1 in numbers && num - 2 in numbers
  }

  /** One pass of `createGame`'s loop body: a run-closing number is dropped when a coin exceeds 0.5. */
  function Attempt(d: Draft, strategy: Strategy, mode: Mode, hot: seq<int>, src: Source): (e: Draft)
    requires ValidSource(src) && ValidHotPool(hot)
    ensures e.attempts == d.attempts + 1
    ensures d.numbers <= e.numbers && |e.numbers| <= |d.numbers| + 1
    ensures forall x :: x in e.numbers ==> x in d.numbers || InUniverse(x)
    ensures d.calls < e.calls <= d.calls + 4
  {
    var (num, c) := Proposal(strategy, hot, src, d.calls);
    if ClosesRun(num, d.numbers, strategy, mode) && NextValue(src, c) > RunSkip then Draft(d.numbers, d.attempts + 1, c + 1)
    else Draft(d.numbers + {num}, d.attempts + 1, if ClosesRun(num, d.numbers, strategy, mode) then c + 1 else c)
  }

  /** Still looping: fewer than 15 numbers and fewer than 1000 attempts. */
  predicate Live(d: Draft) {
    |d.numbers| < PickSize && d.attempts < MaxAttempts
  }

  /**
   * `createGame`'s loop from state `d` to its exit. It stops within 1000 attempts, keeps the
   * numbers it has, adds only universe numbers, and never grows the set past 15.
   */
  function Run(d: Draft, strategy: Strategy, mode: Mode, hot: seq<int>, src: Source): (e: Draft)
    requires ValidSource(src) && ValidHotPool(hot)
    ensures !Live(e)
    ensures d.attempts <= MaxAttempts ==> e.attempts <= MaxAttempts
    ensures d.numbers <= e.numbers && d.calls <= e.calls
    ensures SetInUniverse(d.numbers) ==> SetInUniverse(e.numbers)
    ensures |d.numbers| <= PickSize ==> |e.numbers| <= PickSize
    decreases MaxAttempts - d.attempts
  {
    if Live(d) then Run(Attempt(d, strategy, mode, hot, src), strategy, mode, hot, src) else d
  }

  /** The sorted numbers `createGame` returns, and the calls made once it returns. */
  function CreateGameResult(strategy: Strategy, mode: Mode, hot: seq<int>, src: Source, calls: nat): (r: (seq<int>, nat))
    requires ValidSource(src) && ValidHotPool(hot)
    ensures IsPick(r.0) && r.1 >= calls
  {
    var d := Run(Draft({}, 0, calls), strategy, mode, hot, src);
    (SortedMembers(d.numbers), d.calls)
  }

  /** A live loop state runs on from the state one pass later. */
  lemma RunStep(d: Draft, strategy: Strategy, mode: Mode, hot: seq<int>, src: Source)
    requires ValidSource(src) && ValidHotPool(hot) && Live(d)
    ensures Run(d, strategy, mode, hot, src) == Run(Attempt(d, strategy, mode, hot, src), strategy, mode, hot, src)
  {
  }

  /**
   * A pass adds the number it proposes unless that number closes a run under final-0 mode or
   * the pattern-0 strategy; so a pass adds nothing only when it repeats a number or drops a
   * run-closer, and a standard game that is not pattern-0 never drops one.
   */
  lemma EmptyPass(d: Draft, strategy: Strategy, mode: Mode, hot: seq<int>, src: Source)
    requires ValidSource(src) && ValidHotPool(hot)
    ensures var num := Proposal(strategy, hot, src, d.calls).0;
      !ClosesRun(num, d.numbers, strategy, mode) ==> Attempt(d, strategy, mode, hot, src).numbers == d.numbers + {num}
    ensures var num := Proposal(strategy, hot, src, d.calls).0;
      Attempt(d, strategy, mode, hot, src).numbers == d.numbers ==> num in d.numbers || ClosesRun(num, d.numbers, strategy, mode)
    ensures mode == Standard && strategy != Pattern0 ==>
      Attempt(d, strategy, mode, hot, src).numbers == d.numbers + {Proposal(strategy, hot, src, d.calls).0}
  {
  }

  /** `createGame`, drawing from the generation's shared stream. */
  method CreateGame(stream: RandomStream, strategy: Strategy, mode: Mode, hot: seq<int>) returns (numbers: seq<int>)
    requires stream.Valid() && ValidHotPool(hot)
    modifies stream
    ensures (numbers, stream.calls) == CreateGameResult(strategy, mode, hot, stream.source, old(stream.calls))
    ensures IsPick(numbers)
  {
    var drawn: set<int> := {};
    var attempts: nat := 0;
    ghost var target := Run(Draft({}, 0, stream.calls), strategy, mode, hot, stream.source);
    while |drawn| < PickSize && attempts < MaxAttempts
      invariant stream.Valid()
      invariant Run(Draft(drawn, attempts, stream.calls), strategy, mode, hot, stream.source) == target
      decreases MaxAttempts - attempts
    {
      RunStep(Draft(drawn, attempts, stream.calls), strategy, mode, hot, stream.source);
      drawn, attempts := AttemptOnce(stream, strategy, mode, hot, drawn, attempts);
    }
    numbers := SortedMembers(drawn);
  }

  /** One pass of `createGame`'s loop body, drawing from the stream. */
  method AttemptOnce(stream: RandomStream, strategy: Strategy, mode: Mode, hot: seq<int>, drawn: set<int>, attempts: nat)
    returns (newDrawn: set<int>, newAttempts: nat)
    requires stream.Valid() && ValidHotPool(hot)
    modifies stream`calls
    ensures Draft(newDrawn, newAttempts, stream.calls)
      == Attempt(Draft(drawn, attempts, old(stream.calls)), strategy, mode, hot, stream.source)
  {
    ghost var before := Draft(drawn, attempts, stream.calls);
    newDrawn, newAttempts := drawn, attempts + 1;
    var rnd := stream.Next();
    var num := ToBall(rnd);

    if strategy == Hot {
      var coin := stream.Next();
      if coin > HotBias {
        var pick := stream.Next();
        num := hot[ScaledIndex(pick, |hot|)];
      }
    }
    assert (num, stream.calls) == Proposal(strategy, hot, stream.source, before.calls);

    if mode == Final0 || strategy == Pattern0 {
      if num - 1 in drawn && num - 2 in drawn {
        var coin := stream.Next();
        if coin > RunSkip {
          return;
        }
      }
    }

    newDrawn := drawn + {num};
  }

  /** The cold strategy has no bias of its own: a cold game is drawn exactly as a balanced one. */
  lemma {:induction false} ColdIsBalanced(d: Draft, hot: seq<int>, src: Source)
    requires ValidSource(src) && ValidHotPool(hot)
    ensures Run(d, Cold, Standard, hot, src) == Run(d, Balanced, Standard, hot, src)
    decreases MaxAttempts - d.attempts
  {
    if Live(d) {
      assert Attempt(d, Cold, Standard, hot, src) == Attempt(d, Balanced, Standard, hot, src);
      ColdIsBalanced(Attempt(d, Cold, Standard, hot, src), hot, src);
    }
  }

  /** A stream that always yields 0: every attempt draws 1 again. */
  function Stuck(): Source {
    Entropy(k => 0.0)
  }

  lemma {:induction false} StuckRunKeepsOne(d: Draft, hot: seq<int>)
    requires ValidSource(Stuck()) && ValidHotPool(hot) && d.numbers == {1}
    ensures Run(d, Balanced, Standard, hot, Stuck()).numbers == {1}
    decreases MaxAttempts - d.attempts
  {
    if Live(d) {
      assert ToBall(NextValue(Stuck(), d.calls)) == 1;
      StuckRunKeepsOne(Attempt(d, Balanced, Standard, hot, Stuck()), hot);
    }
  }

  /**
   * Nothing completes a game when the cap is hit: a stream that keeps repeating one value
   * yields a game of a single number after 1000 attempts.
   */
  lemma ShortGameAtCap(hot: seq<int>, calls: nat)
    requires ValidHotPool(hot)
    ensures ValidSource(Stuck())
    ensures CreateGameResult(Balanced, Standard, hot, Stuck(), calls).0 == [1]
  {
    var init := Draft({}, 0, calls);
    assert ToBall(NextValue(Stuck(), calls)) == 1;
    var first := Attempt(init, Balanced, Standard, hot, Stuck());
    assert first.numbers == {1};
    StuckRunKeepsOne(first, hot);
    var r := CreateGameResult(Balanced, Standard, hot, Stuck(), calls).0;
    assert Members(r) == {1} && |r| == 1;
    assert r[0] in Members(r);
  }

  // ---------------------------------------------------------------- generateSmartGames

  /** The strategy of the game at index `i`. */
  function StrategyFor(mode: Mode, i: int): Strategy {
    if mode == Final0 then Pattern0
    else if i < 2 then Hot
    else if i == 2 then Cold
    else Balanced
  }

  /**
   * `createGame` as the loop of `generateSmartGames` uses it: from a strategy and the count of
   * values the shared stream has handed out, the sorted numbers and the count once it returns.
   */
  type GameDraw = (Strategy, nat) -> (seq<int>, nat)

  /** The `createGame` closure of a generation with hot pool `hot` drawing from `src`. */
  function DrawFor(mode: Mode, hot: seq<int>, src: Source): GameDraw
    requires ValidSource(src) && ValidHotPool(hot)
  {
    (strategy: Strategy, calls: nat) => CreateGameResult(strategy, mode, hot, src, calls)
  }

  /** Every game `draw` yields is a pick. */
  ghost predicate DrawsPicks(draw: GameDraw) {
    forall strategy, calls :: IsPick(draw(strategy, calls).0)
  }

  lemma DrawForPicks(mode: Mode, hot: seq<int>, src: Source)
    requires ValidSource(src) && ValidHotPool(hot)
    ensures DrawsPicks(DrawFor(mode, hot, src))
  {
    forall strategy, calls ensures IsPick(DrawFor(mode, hot, src)(strategy, calls).0) {
      var r := CreateGameResult(strategy, mode, hot, src, calls);
    }
  }

  /** Games `i`..6 of a generation whose stream has handed out `calls` values so far. */
  function GamesFrom(mode: Mode, draw: GameDraw, i: nat, calls: nat): seq<GeneratedGame>
    decreases 7 - i
  {
    if i >= 7 then []
    else
      var strategy := StrategyFor(mode, i);
      var r := draw(strategy, calls);
      [GeneratedGame(i + 1, r.0, GetGameStats(r.0), strategy)] + GamesFrom(mode, draw, i + 1, r.1)
  }

  /** The seven games of one generation, all drawn from one stream. */
  function SmartGames(mode: Mode, hot: seq<int>, src: Source): seq<GeneratedGame>
    requires ValidSource(src) && ValidHotPool(hot)
  {
    GamesFrom(mode, DrawFor(mode, hot, src), 0, 0)
  }

  /**
   * `g` is well formed as the game at generation index `index`: id `index + 1`, the strategy
   * of that index, a pick, and the pick's own descriptors.
   */
  predicate GameAt(g: GeneratedGame, index: int, mode: Mode) {
    g.id == index + 1 && g.kind == StrategyFor(mode, index)
    && IsPick(g.numbers) && g.stats == GetGameStats(g.numbers)
  }

  /** `games` are well formed as the games of a generation from index `offset` on. */
  predicate Generation(games: seq<GeneratedGame>, mode: Mode, offset: int) {
    forall k :: 0 <= k < |games| ==> GameAt(games[k], offset + k, mode)
  }

  lemma GenerationCons(head: GeneratedGame, rest: seq<GeneratedGame>, mode: Mode, offset: int)
    requires GameAt(head, offset, mode) && Generation(rest, mode, offset + 1)
    ensures Generation([head] + rest, mode, offset)
  {
    forall k | 1 <= k < |rest| + 1 ensures GameAt(([head] + rest)[k], offset + k, mode) {
      assert ([head] + rest)[k] == rest[k - 1];
    }
  }

  lemma {:induction false} GamesFromShape(mode: Mode, draw: GameDraw, i: nat, calls: nat)
    requires DrawsPicks(draw) && i <= 7
    ensures |GamesFrom(mode, draw, i, calls)| == 7 - i
    ensures Generation(GamesFrom(mode, draw, i, calls), mode, i)
    decreases 7 - i
  {
    if i < 7 {
      var strategy := StrategyFor(mode, i);
      var r := draw(strategy, calls);
      var rest := GamesFrom(mode, draw, i + 1, r.1);
      assert GamesFrom(mode, draw, i, calls) == [GeneratedGame(i + 1, r.0, GetGameStats(r.0), strategy)] + rest;
      GamesFromShape(mode, draw, i + 1, r.1);
      GenerationCons(GeneratedGame(i + 1, r.0, GetGameStats(r.0), strategy), rest, mode, i);
    }
  }

  /** The strategies of a generation of seven: all pattern-0 in final-0 mode, otherwise hot, hot, cold and four balanced. */
  lemma GenerationKinds(games: seq<GeneratedGame>, mode: Mode)
    requires |games| == 7 && Generation(games, mode, 0)
    ensures mode == Final0 ==> forall k :: 0 <= k < 7 ==> games[k].kind == Pattern0
    ensures mode == Standard ==>
      games[0].kind == Hot && games[1].kind == Hot && games[2].kind == Cold
      && forall k :: 3 <= k < 7 ==> games[k].kind == Balanced
  {
    assert forall k :: 0 <= k < 7 ==> GameAt(games[k], k, mode);
  }

  /**
   * A generation has seven games with ids 1..7: all pattern-0 in final-0 mode, otherwise hot,
   * hot, cold and four balanced; each game a pick carrying its own descriptors.
   */
  lemma SmartGamesShape(mode: Mode, hot: seq<int>, src: Source)
    requires ValidSource(src) && ValidHotPool(hot)
    ensures |SmartGames(mode, hot, src)| == 7
    ensures Generation(SmartGames(mode, hot, src), mode, 0)
    ensures mode == Final0 ==> forall k :: 0 <= k < 7 ==> SmartGames(mode, hot, src)[k].kind == Pattern0
    ensures mode == Standard ==>
      var games := SmartGames(mode, hot, src);
      games[0].kind == Hot && games[1].kind == Hot && games[2].kind == Cold
      && forall k :: 3 <= k < 7 ==> games[k].kind == Balanced
  {
    DrawForPicks(mode, hot, src);
    GamesFromShape(mode, DrawFor(mode, hot, src), 0, 0);
    GenerationKinds(SmartGames(mode, hot, src), mode);
  }

  /** Only the hot strategy reads the hot pool: any other game is drawn alike from any pool. */
  lemma {:induction false} RunIgnoresPool(d: Draft, strategy: Strategy, mode: Mode, hot1: seq<int>, hot2: seq<int>, src: Source)
    requires ValidSource(src) && ValidHotPool(hot1) && ValidHotPool(hot2) && strategy != Hot
    ensures Run(d, strategy, mode, hot1, src) == Run(d, strategy, mode, hot2, src)
    decreases MaxAttempts - d.attempts
  {
    if Live(d) {
      assert Attempt(d, strategy, mode, hot1, src) == Attempt(d, strategy, mode, hot2, src);
      RunIgnoresPool(Attempt(d, strategy, mode, hot1, src), strategy, mode, hot1, hot2, src);
    }
  }

  /** Two `createGame` closures that agree on pattern-0 games give the same final-0 games. */
  lemma {:induction false} Final0GamesAgree(draw1: GameDraw, draw2: GameDraw, i: nat, calls: nat)
    requires forall c: nat :: draw1(Pattern0, c) == draw2(Pattern0, c)
    ensures GamesFrom(Final0, draw1, i, calls) == GamesFrom(Final0, draw2, i, calls)
    decreases 7 - i
  {
    if i < 7 {
      Final0GamesAgree(draw1, draw2, i + 1, draw1(Pattern0, calls).1);
    }
  }

  /**
   * A final-0 generation does not depend on the hot pool, so on the history: for a free user
   * it is fixed by the date alone.
   */
  lemma Final0IgnoresHistory(hot1: seq<int>, hot2: seq<int>, src: Source)
    requires ValidSource(src) && ValidHotPool(hot1) && ValidHotPool(hot2)
    ensures SmartGames(Final0, hot1, src) == SmartGames(Final0, hot2, src)
  {
    forall c: nat ensures DrawFor(Final0, hot1, src)(Pattern0, c) == DrawFor(Final0, hot2, src)(Pattern0, c) {
      RunIgnoresPool(Draft({}, 0, c), Pattern0, Final0, hot1, hot2, src);
    }
    Final0GamesAgree(DrawFor(Final0, hot1, src), DrawFor(Final0, hot2, src), 0, 0);
  }

  /**
   * The state of `generateSmartGames`'s loop before game `i`, with `calls` values handed out:
   * `games` followed by the games still to come make up the whole generation.
   */
  predicate GeneratedSoFar(games: seq<GeneratedGame>, mode: Mode, draw: GameDraw, i: nat, calls: nat) {
    games + GamesFrom(mode, draw, i, calls) == GamesFrom(mode, draw, 0, 0)
  }

  /** Appending game `i`, as `draw` makes it, keeps the loop state. */
  lemma GeneratedStep(
    games: seq<GeneratedGame>, mode: Mode, draw: GameDraw, i: nat, calls: nat, numbers: seq<int>, after: nat)
    requires i < 7 && GeneratedSoFar(games, mode, draw, i, calls)
    requires (numbers, after) == draw(StrategyFor(mode, i), calls)
    ensures GeneratedSoFar(games + [GeneratedGame(i + 1, numbers, GetGameStats(numbers), StrategyFor(mode, i))],
      mode, draw, i + 1, after)
  {
    var game := GeneratedGame(i + 1, numbers, GetGameStats(numbers), StrategyFor(mode, i));
    var rest := GamesFrom(mode, draw, i + 1, after);
    assert GamesFrom(mode, draw, i, calls) == [game] + rest;
    assert games + ([game] + rest) == (games + [game]) + rest;
  }

  /** Free users draw from the seeded generator counting up from the day seed; VIP users from `Math.random`. */
  function SourceFor(isVip: bool, sin: int -> real, random: nat -> real, today: Date): Source {
    if isVip then Entropy(random) else Seeded(sin, DailySeed(today))
  }

  /**
   * `generateSmartGames`: the seven games of the history's hot pool, drawn from the user's
   * source. For a free user they are fixed by the date and the history (the delay values play
   * no part); the history itself is refilled by `Math.random` at every load.
   */
  method GenerateSmartGames(
    mode: Mode, isVip: bool, history: seq<seq<int>>, delayRandom: nat -> real,
    sin: int -> real, random: nat -> real, today: Date)
    returns (games: seq<GeneratedGame>)
    requires ValidHistory(history) && ValidRandom(delayRandom)
    requires isVip ==> ValidRandom(random)
    ensures ValidSource(SourceFor(isVip, sin, random, today))
    ensures games == SmartGames(mode, HotNumbers(Frequencies(history)), SourceFor(isVip, sin, random, today))
    ensures |games| == 7 && Generation(games, mode, 0)
  {
    var stats := CalculateStats(history, delayRandom);
    HotAndCold(stats.frequency);
    var hot := stats.hotNumbers;
    var source := SourceFor(isVip, sin, random, today);
    var stream := new RandomStream(source);
    ghost var draw := DrawFor(mode, hot, source);
    games := [];
    for i := 0 to 7
      invariant stream.source == source && stream.Valid()
      invariant GeneratedSoFar(games, mode, draw, i, stream.calls)
    {
      var strategy := StrategyFor(mode, i);
      ghost var calls := stream.calls;
      var numbers := CreateGame(stream, strategy, mode, hot);
      assert (numbers, stream.calls) == draw(strategy, calls);
      GeneratedStep(games, mode, draw, i, calls, numbers, stream.calls);
      games := games + [GeneratedGame(i + 1, numbers, GetGameStats(numbers), strategy)];
    }
    assert GamesFrom(mode, draw, 7, stream.calls) == [];
    SmartGamesShape(mode, hot, source);
  }

  // ---------------------------------------------------------------- generateDailyGame

  /** The number the daily loop draws from `seed`. */
  function DailyBall(sin: int -> real, seed: int): (n: int)
    ensures InUniverse(n)
  {
    ToBall(SeededRandom(sin, seed))
  }

  /** The numbers drawn from the first `n` seeds counting up from `base`. */
  function DrawnSet(sin: int -> real, base: int, n: nat): (s: set<int>)
    ensures SetInUniverse(s)
  {
    if n == 0 then {} else DrawnSet(sin, base, n - 1) + {DailyBall(sin, base + n - 1)}
  }

  /** Seed `n` (counting from 1) is the one at which the draw from `base` first holds 15 numbers. */
  predicate FirstFull(sin: int -> real, base: int, n: nat) {
    0 < n && |DrawnSet(sin, base, n)| == PickSize && |DrawnSet(sin, base, n - 1)| < PickSize
  }

  /** `s` is the daily game of day seed `base`: the sorted numbers drawn up to the seed that first gives 15. */
  ghost predicate IsDailyDraw(sin: int -> real, base: int, s: seq<int>) {
    exists n: nat :: FirstFull(sin, base, n) && s == SortedMembers(DrawnSet(sin, base, n))
  }

  lemma {:induction false} DrawnSetGrows(sin: int -> real, base: int, m: nat, n: nat)
    requires m <= n
    ensures DrawnSet(sin, base, m) <= DrawnSet(sin, base, n)
    ensures |DrawnSet(sin, base, m)| <= |DrawnSet(sin, base, n)|
    decreases n
  {
    if m < n {
      DrawnSetGrows(sin, base, m, n - 1);
      SubsetCard(DrawnSet(sin, base, m), DrawnSet(sin, base, n));
    }
  }

  /** The draw of the first `k - 1` seeds is short of 15 numbers. */
  predicate ShortBefore(sin: int -> real, base: int, k: nat) {
    k == 0 || |DrawnSet(sin, base, k - 1)| < PickSize
  }

  /**
   * The state of `generateDailyGame`'s loop after `k` seeds: `numbers` holds their draws,
   * the loop did not stop earlier, and `bound`, a count of seeds that reaches 15, is not passed.
   */
  predicate DailyState(sin: int -> real, base: int, bound: nat, numbers: set<int>, k: nat) {
    k <= bound && numbers == DrawnSet(sin, base, k) && ShortBefore(sin, base, k)
  }

  /** One pass of the daily loop keeps its state, and stays within `bound`. */
  lemma DailyStep(sin: int -> real, base: int, bound: nat, numbers: set<int>, k: nat)
    requires DailyState(sin, base, bound, numbers, k) && |numbers| < PickSize
    requires |DrawnSet(sin, base, bound)| >= PickSize
    ensures DailyState(sin, base, bound, numbers + {DailyBall(sin, base + k)}, k + 1)
  {
    ShortOfBound(sin, base, k, bound);
  }

  /**
   * One seed adds at most one number: the loop leaves with exactly 15, at the first seed that
   * gives them, so their sorted listing is the daily game.
   */
  lemma DailyExit(sin: int -> real, base: int, bound: nat, numbers: set<int>, k: nat)
    requires DailyState(sin, base, bound, numbers, k) && |numbers| >= PickSize
    ensures SetInUniverse(numbers)
    ensures IsPick(SortedMembers(numbers)) && |SortedMembers(numbers)| == PickSize
    ensures IsDailyDraw(sin, base, SortedMembers(numbers))
  {
    assert FirstFull(sin, base, k);
  }

  /** While fewer than 15 numbers are drawn, the seeds that do reach 15 lie further on. */
  lemma ShortOfBound(sin: int -> real, base: int, k: nat, bound: nat)
    requires |DrawnSet(sin, base, k)| < PickSize <= |DrawnSet(sin, base, bound)|
    ensures k < bound
  {
    if bound <= k {
      DrawnSetGrows(sin, base, bound, k);
    }
  }

  /**
   * The daily game is a function of the day seed: two daily games of the same date are equal,
   * so a free user sees one game all day.
   */
  lemma DailyDrawUnique(sin: int -> real, base: int, s1: seq<int>, s2: seq<int>)
    requires IsDailyDraw(sin, base, s1) && IsDailyDraw(sin, base, s2)
    ensures s1 == s2
  {
    var n1: nat :| FirstFull(sin, base, n1) && s1 == SortedMembers(DrawnSet(sin, base, n1));
    var n2: nat :| FirstFull(sin, base, n2) && s2 == SortedMembers(DrawnSet(sin, base, n2));
    FirstFullUnique(sin, base, n1, n2);
  }

  /** Only one seed is the first to complete the draw. */
  lemma FirstFullUnique(sin: int -> real, base: int, n1: nat, n2: nat)
    requires FirstFull(sin, base, n1) && FirstFull(sin, base, n2)
    ensures n1 == n2
  {
    if n1 < n2 {
      DrawnSetGrows(sin, base, n1, n2 - 1);
    } else if n2 < n1 {
      DrawnSetGrows(sin, base, n2, n1 - 1);
    }
  }

  /** The draws of `m + 1` seeds from `base` are the first seed's ball and the draws of `m` seeds from `base + 1`. */
  lemma {:induction false} ShiftDrawn(sin: int -> real, base: int, m: nat)
    ensures DrawnSet(sin, base, m + 1) == {DailyBall(sin, base)} + DrawnSet(sin, base + 1, m)
  {
    if m > 0 {
      ShiftDrawn(sin, base, m - 1);
    }
  }

  /**
   * The next seed repeats the daily game: when the first ball of seed `base` comes back among
   * the draws of seed `base + 1` before that draw completes, both seeds give the same game.
   * With consecutive day seeds (`Sampler.NextDaySeed`), a day then shows the previous day's tip.
   */
  lemma NextDaySameGame(sin: int -> real, base: int, n: nat)
    requires FirstFull(sin, base, n)
    requires DailyBall(sin, base) in DrawnSet(sin, base + 1, n - 1)
    ensures IsDailyDraw(sin, base + 1, SortedMembers(DrawnSet(sin, base, n)))
  {
    assert n >= 2;
    ShiftDrawn(sin, base, n - 1);
    assert DrawnSet(sin, base, n) == DrawnSet(sin, base + 1, n - 1);
    ShiftDrawn(sin, base, n - 2);
    SubsetCard(DrawnSet(sin, base + 1, n - 2), DrawnSet(sin, base, n - 1));
    assert FirstFull(sin, base + 1, n - 1);
  }

  /**
   * `generateDailyGame` for the date `today`. Its loop stops only once 15 distinct numbers are
   * drawn; the ghost `bound`, a count of seeds after which that has happened, is its measure.
   */
  method GenerateDailyGame(today: Date, sin: int -> real, ghost bound: nat) returns (game: GeneratedGame)
    requires |DrawnSet(sin, DailySeed(today), bound)| >= PickSize
    ensures game.id == 999 && game.kind == Daily
    ensures IsPick(game.numbers) && |game.numbers| == PickSize
    ensures game.stats == GetGameStats(game.numbers)
    ensures IsDailyDraw(sin, DailySeed(today), game.numbers)
  {
    var seedBase := DailySeed(today);
    var numbers: set<int> := {};
    // `currentSeed` is `seedBase + k`.
    var k: nat := 0;
    while |numbers| < PickSize
      invariant DailyState(sin, seedBase, bound, numbers, k)
      decreases bound - k
    {
      DailyStep(sin, seedBase, bound, numbers, k);
      var rnd := SeededRandom(sin, seedBase + k);
      numbers := numbers + {ToBall(rnd)};
      k := k + 1;
    }
    DailyExit(sin, seedBase, bound, numbers, k);
    var sortedNumbers := SortedMembers(numbers);
    game := GeneratedGame(999, sortedNumbers, GetGameStats(sortedNumbers), Daily);
  }
}
