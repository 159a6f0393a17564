# Lottery pick engine (Lotofácil, numbers 1..25)

This project models the number-generation engine of a lottery tip website. The game is
Lotofácil: a draw and a pick are 15 distinct numbers out of 1..25. The engine lives in
`src/utils/lotteryLogic.ts` and has these parts:

- `calculateStats`: over a history of past draws, it computes the frequency of every number
  and a simulated delay for every number. It ranks the numbers by frequency, takes the ten
  most frequent as *hot* and the five least frequent as *cold*.
- `getGameStats`: the descriptors shown beside a game. These are the sum, the odd and even
  counts, and the prime count.
- `generateDailyGame`: the "tip of the day" for free users. It is drawn by a sine-based
  seeded generator from a seed built from the calendar date, so it is the same all day.
- `generateSmartGames`: seven games per request.
  - In standard mode the strategies are hot, hot, cold and four balanced.
  - In final-0 mode all seven are pattern-0.
  - Free users draw from the seeded generator, counting up from the day seed. VIP users draw
    from `Math.random`.
  - One shared counter feeds all seven games.
  - Each game is built by `createGame`. It loops at most 1000 times, adding at most one
    number per pass: a repeated number or a dropped run-closer adds nothing, which is why the
    cap can be reached.
  - A hot game replaces the drawn number by a hot number when a coin exceeds 0.3.
  - Under final-0 mode or the pattern-0 strategy, a number that would close a run of three
    consecutive numbers is dropped when a coin exceeds 0.5.

The Dafny modules:

- `Picks`: the universe, ascending listings, and `Array.from(set).sort(...)`.
- `Sampler`: `seededRandom`, the day seed, and the `getNextRandom` closure as the class
  `RandomStream`.
- `Descriptors`: `getGameStats`.
- `Statistics`: `calculateStats`, with its counting loops as methods, the stable sort by
  frequency as a function, and the hot/cold slices.
- `Generator`: `createGame`, `generateSmartGames` and `generateDailyGame`.

Each loop is modelled twice:

- as a method with the loop and its invariants;
- as a specification function of the inputs.

The method's postcondition equates the two. The properties are proved about the function.

Behaviour of the code that its names and comments do not suggest:

- The delay of a number missing from the latest draw is a random value in 1..5. It is not
  a count of draws since the number last appeared, which the record's comment "Concursos em
  atraso" (line 39) suggests. The delay is 0 exactly when the number is in the latest draw
  (`Statistics.CalculateStats`).
- `createGame` has no fallback when it reaches its 1000-attempt cap. It returns whatever it
  has drawn, which can be fewer than 15 numbers (`Generator.ShortGameAtCap`).
- The cold strategy has no bias toward the cold numbers. A cold game is drawn exactly as a
  balanced one (`Generator.ColdIsBalanced`).
- The seeded games of one generation share one advancing counter. Seeds are not derived
  per game.
- A free user's daily tip is not necessarily new each day. Day seeds of consecutive days in
  one month are consecutive (`Sampler.NextDaySeed`), and the daily loop counts up from its
  seed, so the next day's draw is today's minus its first ball. Once that ball comes back
  before the next day's draw completes, which is likely since about 20 balls are needed to
  collect 15 of 25 numbers, the next day shows the same tip (`Generator.NextDaySameGame`).
  The free user's smart games share the same overlap through their counter.
- Hit counting against an official draw is a POST to a remote service
  (`src/pages/Dashboard.tsx`, lines 50-54). It is not in this file.

## Model

| member | source | states |
|---|---|---|
| Sampler.SeededRandom | src/utils/lotteryLogic.ts:32-35 | for any sine value, the seeded generator yields a value in [0, 1) |
| Sampler.ToBall | src/utils/lotteryLogic.ts:95 | scaling a [0, 1) value by 25, flooring and adding 1 gives a number of the universe 1..25 |
| Sampler.ScaledIndex | src/utils/lotteryLogic.ts:139 | scaling a [0, 1) value by a list's length and flooring gives a valid index of that list |
| Sampler.DailySeedRoundTrip | src/utils/lotteryLogic.ts:88 | the day seed keeps the whole date: day, 0-based month and year decode back from it |
| Sampler.DailySeedInjective | src/utils/lotteryLogic.ts:118 | two different valid dates never share a day seed |
| Sampler.NextValue | src/utils/lotteryLogic.ts:123-126 | every value the generation's random source hands out, seeded or VIP, lies in [0, 1) |
| Sampler.RandomStream.Next | src/utils/lotteryLogic.ts:123-126 | a call returns the source's value for the current count of calls, and advances the shared counter by one |
| Sampler.NextDaySeed | src/utils/lotteryLogic.ts:88 | the next day within a month has the day seed plus one, so consecutive days count up through overlapping seeds |
| Picks.SortedMembers | src/utils/lotteryLogic.ts:99 | the sorted listing of a set of universe numbers is ascending, holds exactly the set's members, and has the set's size |
| Picks.AscendingUnique | src/utils/lotteryLogic.ts:155 | two ascending listings of the same numbers are equal, so any numeric sort of the set gives the modelled listing |
| Descriptors.GetGameStats | src/utils/lotteryLogic.ts:76-83 | the even and odd counts add up to the length of the game, and every count is within the length |
| Descriptors.CountWhere | src/utils/lotteryLogic.ts:78-80 | a filter's count never exceeds the length of the list it filters |
| Descriptors.CountWhereMembers | src/utils/lotteryLogic.ts:78-80 | on a duplicate-free list, a filter's count is the number of distinct members that pass the test |
| Descriptors.PickDescriptors | src/utils/lotteryLogic.ts:76-83 | for a pick, `odd`, `even` and `prime` count its distinct odd, even and prime members, so at most 13, 12 and 9 |
| Descriptors.SumBounds | src/utils/lotteryLogic.ts:77 | the sum of an ascending pick of n numbers lies between 1+...+n and (26-n)+...+25, which is 120..270 for a full pick |
| Statistics.Frequencies | src/utils/lotteryLogic.ts:42-52 | the frequency record has an entry for every number 1..25 |
| Statistics.FrequencyTotal | src/utils/lotteryLogic.ts:42-52 | the frequencies add up to the number of entries in the history, which is 15 times the number of draws when every draw is full |
| Statistics.CountFrequencies | src/utils/lotteryLogic.ts:48-52 | the counting loop leaves each number's entry equal to its occurrences over the whole history |
| Statistics.Misses | src/utils/lotteryLogic.ts:56-58 | before number n the delay loop has used at most n - 1 random values |
| Statistics.MissesCount | src/utils/lotteryLogic.ts:56-58 | the random values used before number n are exactly one per number below n missing from the latest draw |
| Statistics.DelayOf | src/utils/lotteryLogic.ts:57-58 | a number's delay is 0 exactly when the latest draw contains it, and 1..5 otherwise |
| Statistics.DelayDraw | src/utils/lotteryLogic.ts:58 | a simulated delay lies in 1..5 |
| Statistics.Delays | src/utils/lotteryLogic.ts:55-60 | the delay record has an entry for every number 1..25 |
| Statistics.SimulateDelays | src/utils/lotteryLogic.ts:55-60 | the delay loop leaves 0 for each number of the latest draw, and for each other number the simulated delay drawn from the next random value in turn |
| Statistics.InsertStable | src/utils/lotteryLogic.ts:63-64 | inserting a number into the stably sorted prefix yields that prefix with the number added, as a multiset |
| Statistics.StableSortByFreq | src/utils/lotteryLogic.ts:63-65 | the sort by descending frequency is a permutation of its input |
| Statistics.UniverseList | src/utils/lotteryLogic.ts:42-45 | the keys of the record, in the order they are listed, are the 25 universe numbers in ascending order |
| Statistics.StableSortRanked | src/utils/lotteryLogic.ts:63-65 | sorting an ascending list stably by descending frequency orders it by frequency, with ties in ascending number order |
| Statistics.RankingIsOrdered | src/utils/lotteryLogic.ts:62-65 | the ranking (`Ranking`, the list `sortedByFreq`) lists each of 1..25 exactly once, by descending frequency, ties by ascending number |
| Statistics.RankedUnique | src/utils/lotteryLogic.ts:63-65 | only one list of the same numbers has that order, so the ranking does not depend on how the sort is carried out |
| Statistics.RankedDistinct | src/utils/lotteryLogic.ts:63-65 | a ranking holds no number twice |
| Statistics.HotNumbers | src/utils/lotteryLogic.ts:68 | the hot numbers are ten numbers of the universe |
| Statistics.ColdNumbers | src/utils/lotteryLogic.ts:69 | the cold numbers are five numbers of the universe, the tail of the frequency ranking |
| Statistics.HotAndCold | src/utils/lotteryLogic.ts:68-69 | there are ten hot and five cold numbers, universe numbers with no repetition in either list; the two sets are disjoint, and no hot number is less frequent than a cold one |
| Statistics.CalculateStats | src/utils/lotteryLogic.ts:37-74 | the frequencies are the occurrences over the history; the delay is 0 exactly for the numbers of the latest draw and 1..5 for the others; hot and cold are the head and tail of the frequency ranking |
| Generator.Proposal | src/utils/lotteryLogic.ts:134-141 | the number a pass proposes, drawn or taken from the hot pool, is in the universe; the pass uses one to three random values |
| Generator.Attempt | src/utils/lotteryLogic.ts:132-153 | a pass counts one attempt, keeps every number drawn so far, adds at most one universe number, and uses one to four random values |
| Generator.EmptyPass | src/utils/lotteryLogic.ts:144-152 | a pass adds its proposed number unless the number closes a run of three under final-0 mode or pattern-0 (`ClosesRun`); a pass adds nothing only by repeating a number or dropping a run-closer; a standard non-pattern-0 game never drops one |
| Generator.Run | src/utils/lotteryLogic.ts:132-153 | the draw loop stops with 15 numbers or 1000 attempts, never passes the cap, keeps its numbers, adds only universe numbers, and never exceeds 15 |
| Generator.CreateGameResult | src/utils/lotteryLogic.ts:128-156 | a created game is an ascending list of at most 15 distinct universe numbers, and the shared counter never goes back |
| Generator.CreateGame | src/utils/lotteryLogic.ts:128-156 | `createGame` over the shared stream returns the game of the loop's specification and leaves the counter where that loop leaves it |
| Generator.AttemptOnce | src/utils/lotteryLogic.ts:133-152 | one pass of the loop body over the stream, with its early exit for a dropped run-closing number, computes exactly the specified pass |
| Generator.ColdIsBalanced | src/utils/lotteryLogic.ts:137-150 | in standard mode a cold game is drawn exactly as a balanced game from the same state |
| Generator.ShortGameAtCap | src/utils/lotteryLogic.ts:132 | a stream that repeats one value leaves a one-number game after 1000 attempts: the cap returns short games |
| Generator.DrawForPicks | src/utils/lotteryLogic.ts:166 | every game the generation's `createGame` can return is a pick |
| Generator.GamesFromShape | src/utils/lotteryLogic.ts:158-174 | the games `GamesFrom` builds from index i number 7-i, each with id index+1, the strategy of its index, a pick, and its own descriptors |
| Generator.GenerationKinds | src/utils/lotteryLogic.ts:159-164 | the strategy choice `StrategyFor` makes a well-formed generation of seven is all pattern-0 in final-0 mode, and otherwise hot, hot, cold and four balanced |
| Generator.SmartGamesShape | src/utils/lotteryLogic.ts:158-176 | a generation (`SmartGames`) has seven games with ids 1..7, the strategies by mode, and each game a pick with its own descriptors |
| Generator.RunIgnoresPool | src/utils/lotteryLogic.ts:134-141 | only the hot strategy reads the hot pool: any other game is drawn alike from any pool |
| Generator.Final0GamesAgree | src/utils/lotteryLogic.ts:158-174 | the final-0 games depend only on how pattern-0 games are created |
| Generator.Final0IgnoresHistory | src/utils/lotteryLogic.ts:110-176 | a final-0 generation does not depend on the hot pool, so not on the history: for a free user it is fixed by the date alone |
| Generator.GenerateSmartGames | src/utils/lotteryLogic.ts:110-177 | the method returns the generation of the history's hot numbers drawn from the user's source, so seven well-formed games; for a free user it is fixed by date and history |
| Generator.DailyBall | src/utils/lotteryLogic.ts:94-95 | each seed of the daily loop yields a number of the universe |
| Generator.DrawnSet | src/utils/lotteryLogic.ts:93-97 | the numbers the daily loop has drawn are all in the universe |
| Generator.DrawnSetGrows | src/utils/lotteryLogic.ts:93-97 | the daily draw only grows as more seeds are used |
| Generator.FirstFullUnique | src/utils/lotteryLogic.ts:93 | only one seed is the first to complete 15 numbers |
| Generator.ShiftDrawn | src/utils/lotteryLogic.ts:91-96 | the draws of m + 1 seeds are the first seed's ball and the draws of m seeds from the next seed |
| Generator.NextDaySameGame | src/utils/lotteryLogic.ts:86-99 | when the first ball of one seed returns in the next seed's draw before that draw completes, both seeds give the same daily game |
| Generator.DailyExit | src/utils/lotteryLogic.ts:93-99 | when the daily loop stops, it holds exactly 15 numbers, reached first at its last seed; their sorted listing is the daily game |
| Generator.DailyDrawUnique | src/utils/lotteryLogic.ts:86-99 | the daily game is a function of the day seed: two daily games for one date are the same |
| Generator.GenerateDailyGame | src/utils/lotteryLogic.ts:86-107 | the result has id 999 and type daily; it is a full pick of 15 ascending distinct universe numbers with its own descriptors, and it is the daily game of today's seed |

## Left out

- `Math.sin` is a parameter `sin`, any function from seeds to reals. Floating-point rounding
  of `sin(seed) * 10000`, of its floor and of every scaling is not modelled; reals are exact.
- `Math.random` is a parameter: a stream of values in [0, 1) indexed by call number. The
  delay loop and the VIP generator take their values from two separate streams. In the
  program both read the one global generator, one after the other.
- `new Date()` is a parameter `today`. The clock itself is not modelled.
- `MOCK_HISTORY` (lines 22-28) is a parameter `history`. It is required to be non-empty and
  made of universe numbers. The random filling of the constant itself is not modelled.
  `Math.random` refills it at every load, and standard-mode hot games read the hot pool taken
  from it, and every later game depends on them through the shared counter. So a free user's
  standard generation is fixed for the day only for a fixed history. A final-0 generation is
  independent of the history (`Generator.Final0IgnoresHistory`).
- `averageSum` is a constant 200 with nothing to prove.
- `mockResults.ts` is not part of this model.
- Generator.GenerateDailyGame: the source loop ends only if 15 distinct numbers eventually
  appear. The model takes a ghost count of seeds `bound` by which that has happened, as a
  precondition, and it measures termination by it. For a sine oracle that never yields 15
  numbers, the program would loop forever, and the model does not cover that case.
- JavaScript numbers are doubles. The model uses unbounded integers; every value in the
  engine stays far below 2^53.
