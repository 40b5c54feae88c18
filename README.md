# GamBible rating core in Dafny

GamBible rates players from a history of games. It keeps two in-memory tables:
`GAMES`, keyed by game ID, and `PLAYERS`, keyed by player ID. It replays every
unprocessed game in date order and reports how often the stronger-rated side
won. There are two engines:

- **ELO** (`src/ranking/ELO.py`) handles one-versus-one games. It uses a logistic
  win probability and a three-tier growth coefficient K. Each game updates
  both records in place: rating, game list and per-terrain counters.
- **MMR** (`src/ranking/MMR.py`) handles ranked multiplayer games. Before a game,
  every participant's uncertainty is diffused (`diffuse`) and inflated by β.
  Then every participant's performance is estimated from one snapshot of the
  ranking. It is appended with weight 1/β², and the skill is re-solved by
  bisection.

Both engines search a grid of hyperparameters. They skip configurations
already stored in the configuration table. Shared helpers:

- `src/ranking/general.py` sorts games by date and configurations by success rate.
- `src/resources/utils.py` has the bisection root finder `findZero` and the
  rank name of a rating.

The Dafny modules follow those files:

| file | module | models |
|---|---|---|
| `dicts.dfy` | `Dicts` | a Python `dict`: a map plus its insertion order |
| `real_math.dfy` | `RealMath` | the transcendental functions, as parameters with stated facts |
| `sorting.dfy` | `Sorting` | `list.sort(key=...)`: a stable sort, as a function and as an in-place array method |
| `general.dfy` | `General` | `orderGamesTable`, `orderConfigurationsTable` |
| `replays.dfy` | `Replays` | the loop of `processGames`, shared by both engines |
| `utils.dfy` | `Utils` | `getRankFromELO`, `findZero` |
| `elo.dfy` | `Elo` | the ELO engine |
| `mmr.dfy` | `Mmr` | the MMR engine |

Where the source updates state in place, the model does too:

- the tables are the fields of a `Database` class;
- the loops are methods with invariants;
- the array sort works on an `array`.

Each such method is proved to compute a specification function. The
properties are proved about those functions as lemmas. `processGames` is
specified by a replay function (`Replays.ReplayFrom`, `Replays.ProcessAll`).
That function and its lemmas are written once, for any engine that fits the
loop (`Replays.Sound`); `Elo.Engine` and `Mmr.Engine` plug in each engine's
games, players and `processGame`.

## Model

| member | source | states |
|---|---|---|
| Dicts.Values | src/ranking/general.py:24-25 | `values()` has one entry per key; entry i is the value of the i-th inserted key |
| Dicts.Put | src/ranking/MMR.py:196-201 | `d[k] = v`: the map gets `k := v`; an existing key keeps its place and the key set is unchanged; a new key goes last; the order stays duplicate-free and matches the keys |
| Sorting.Insert | src/ranking/general.py:27 | definition, no contract of its own: the insertion step of the stable sort, placing `x` after every element whose key is not larger (its properties are `InsertSorted`, `InsertPermutes`, `InsertFilter`) |
| Sorting.SortBy | src/ranking/general.py:27 | definition, no contract of its own: `list.sort(key=...)` as insertion sort by repeated `Insert` (its properties are `SortByPermutes`, `SortBySorted`, `SortByStable`) |
| Sorting.SortByPermutes | src/ranking/general.py:27 | sorting yields a permutation of the list, of the same length |
| Sorting.SortBySorted | src/ranking/general.py:27 | under a strict total order on keys, the sorted list is in non-decreasing key order |
| Sorting.SortByStable | src/ranking/general.py:27 | stability: for every key, the elements with that key keep their relative order |
| Sorting.SortByPermutesProjection | src/ranking/general.py:27-29 | the projection of the sorted list (e.g. to IDs) is a permutation of the projection of the input |
| Sorting.InsertSorted | src/ranking/general.py:27 | inserting into a sorted list keeps it sorted |
| Sorting.InsertPermutes | src/ranking/general.py:27 | inserting adds exactly one element to the multiset |
| Sorting.InsertFilter | src/ranking/general.py:27 | inserting `x` into a sorted list appends `x` to the elements of its own key and leaves other keys' elements as they were |
| Sorting.ShiftLarger | src/ranking/general.py:27 | inner loop of the in-place sort: elements with a larger key than `x` move one place right; the returned gap has no larger key before it and only larger keys after it |
| Sorting.InsertLast | src/ranking/general.py:27 | one in-place insertion step: the prefix becomes `Insert(a[i], a[..i])` and the rest of the array is untouched |
| Sorting.SortInPlace | src/ranking/general.py:27 | `list.sort(key=...)` in place: the array ends up holding `SortBy` of its old contents |
| Sorting.Project | src/ranking/general.py:28-29 | `[f(x) for x in s]`: same length, entry i is `f(s[i])` |
| General.StringLessIsOrder | src/ranking/general.py:27 | Python `<` on strings (lexicographic, a prefix first) is a strict total order, so the date sort is well defined |
| General.RealLessIsOrder | src/ranking/general.py:46 | `<` on success rates is a strict total order |
| General.ListOfValues | src/ranking/general.py:23-25 | the loop appending every `values()` entry to a new list yields a fresh array holding the values in insertion order |
| General.OrderedIds | src/ranking/general.py:15-31 | definition, no contract of its own: the `ID` of every game of `values()`, after the stable sort by `DATE` (its properties are `OrderedIdsAreKeys`, and `OrderGamesTable` computes it) |
| General.OrderGamesTable | src/ranking/general.py:15-31 | returns the IDs of the games sorted stably by `DATE`, i.e. `OrderedIds` |
| General.OrderedGamesSpec | src/ranking/general.py:23-27 | the sorted games: one per table entry, a permutation of the values, dates non-decreasing, equal dates in table order |
| General.OrderedIdsAreKeys | src/ranking/general.py:23-31 | when every game's ID is its key: the result is a permutation of the keys, contains exactly the keys, and looking the IDs up gives non-decreasing dates |
| General.OrderConfigurationsTable | src/ranking/general.py:34-48 | returns the table's values sorted stably by `SUCCESS_RATE` |
| General.OrderedConfigurationsSpec | src/ranking/general.py:42-48 | that list is a permutation of the values, ascending by rate, with equal rates in insertion order |
| Utils.RankOf | src/resources/utils.py:19-35 | definition, no contract of its own: the if/elif chain, `'ELO'` giving DIVISION and each bound compared with strict `<` (its properties are `RankCountsThresholds`, `RankMonotone`, `DivisionOnlyForHeader`) |
| Utils.GetRankFromElo | src/resources/utils.py:13-36 | definition, no contract of its own: the upper-case name of `RankOf` (its properties are `NamesDistinct`, `NameRoundTrip`) |
| Utils.NamesDistinct | src/resources/utils.py:19-36 | two ranks have the same name iff they are the same rank |
| Utils.NameRoundTrip | src/resources/utils.py:19-36 | each rank's name reads back as that rank |
| Utils.DivisionOnlyForHeader | src/resources/utils.py:20-21 | the result is DIVISION iff the input is the `'ELO'` header |
| Utils.RankCountsThresholds | src/resources/utils.py:22-35 | a rating's tier is 1 + the number of bounds 500, 900, 1300, 1700, 2100, 2500 it reaches, each compared with strict `<` |
| Utils.ReachedMonotone | src/resources/utils.py:22-35 | a higher rating reaches at least as many bounds |
| Utils.RankMonotone | src/resources/utils.py:22-35 | a higher rating never yields a lower rank |
| Utils.HalvingsSuffice | src/resources/utils.py:40-46 | starting from width 2e4, the measured width reaches the 1e-5 tolerance after 32 halvings and not before |
| Utils.BisectFrom | src/resources/utils.py:44-55 | the bisection from a loop state returns a value in `[a, b)` |
| Utils.FindZero | src/resources/utils.py:39-55 | the `while` loop returns `Bisection(f)`, a value in `[-1e4, 1e4)`, for every `f` (no failure path) |
| Utils.BisectStep | src/resources/utils.py:44-53 | one iteration: both halves are loop states with the old width as Δ, and the search continues at the midpoint (zero), the upper half (same sign as `f(a)`) or the lower half |
| Utils.BisectDone | src/resources/utils.py:44-55 | once Δ is within the tolerance the loop exits and returns `a` |
| Utils.DeltaAboveTolerance | src/resources/utils.py:44-46 | the loop condition `Δ > ε` holds exactly before the 32nd halving |
| Utils.SignStep | src/resources/utils.py:50-53 | when `f(a)` and `f(m)` have the same sign and `f(a)·f(b) <= 0`, then `f(m)·f(b) <= 0` |
| Utils.Halving | src/resources/utils.py:45-53 | either half of the bracket is again a loop state |
| Utils.MovesLower | src/resources/utils.py:50-51 | a non-zero midpoint with the sign of `f(a)` becomes the new lower end |
| Utils.BracketsAtEnd | src/resources/utils.py:44-55 | on a normal exit the returned value lies within the final bracket around a sign change |
| Utils.BisectFromBrackets | src/resources/utils.py:44-53 | if `f(a)·f(b) <= 0`, the invariant holds to the end and the result is a zero or within 2e4·2^-32 of a sign change |
| Utils.Bisection | src/resources/utils.py:39-55 | definition, no contract of its own: `BisectFrom` started from Δ = 1, a = -1e4, b = 1e4 (`FindZero` is proved to return it; its properties are `BisectionBrackets`, `BisectionWithoutRoot`, `BisectionExtensional`) |
| Utils.BisectionBrackets | src/resources/utils.py:39-55 | if `f(-1e4)·f(1e4) <= 0`, `findZero` returns a point near a zero; the final bracket is within half the tolerance |
| Utils.BisectionFirstMidpoint | src/resources/utils.py:45-49 | a zero exactly at the first midpoint 0 is returned as is |
| Utils.BisectFromDrifts | src/resources/utils.py:44-53 | when `f` is positive on the bracket, the lower end climbs to `1e4 - 2e4·2^-32` |
| Utils.BisectionWithoutRoot | src/resources/utils.py:39-55 | with no sign change (`f > 0` throughout) `findZero` still returns `1e4 - 2e4·2^-32`, without signalling failure |
| Utils.BisectFromExtensional | src/resources/utils.py:44-53 | the search reads `f` only inside `[-1e4, 1e4]` |
| Utils.BisectionExtensional | src/resources/utils.py:39-55 | functions equal on the bracket give the same `findZero` result |
| Utils.Half | src/resources/utils.py:45-46 | the width factor after n halvings lies in (0, 1] |
| Replays.ReplayFrom | src/ranking/ELO.py:39-43 | the loop over the ordered IDs (the same loop is `src/ranking/MMR.py:41-44`): the counters only grow, and correct predictions grow no faster than processed games |
| Replays.ReplayStep | src/ranking/ELO.py:39-43 | one iteration: a processed game is skipped; otherwise it is flagged, the engine's step is applied and both counters advance |
| Replays.ReplayConsistent | src/ranking/ELO.py:39-43 | the replay keeps the tables consistent, with the same game keys in the same order and the same players |
| Replays.ReplayMarks | src/ranking/ELO.py:39-43 | the replay flags exactly the visited games and changes no other game field |
| Replays.ReplayIdle | src/ranking/ELO.py:39-43 | with every game processed, the replay changes nothing and counts nothing |
| Replays.ReplayCounts | src/ranking/ELO.py:41-42 | an unprocessed visited game makes the total grow |
| Replays.OrderedIdsReplayable | src/ranking/ELO.py:37 | the IDs `orderGamesTable` returns are exactly the game keys, so the loop can look each of them up |
| Replays.ProcessAll | src/ranking/ELO.py:35-43 | the replay of all games in date order leaves consistent tables |
| Replays.ProcessAllMarksEveryGame | src/ranking/ELO.py:35-43 | afterwards every game is flagged and no other field changed; nothing is counted iff every game was already processed; correct <= total |
| Replays.SecondRunIdle | src/ranking/ELO.py:35-43 | an immediate second run leaves both tables as they are and counts nothing |
| Elo.WinProbability | src/ranking/ELO.py:98-109 | `1 / (1 + 10^(-(elo1-elo2)/400))` lies strictly between 0 and 1 |
| Elo.WinProbabilityComplement | src/ranking/ELO.py:98-109 | p(a, b) + p(b, a) = 1, so the source's `1 - p` is the other side's probability |
| Elo.WinProbabilityEven | src/ranking/ELO.py:107-109 | equal ratings give exactly 1/2 |
| Elo.WinProbabilityFavours | src/ranking/ELO.py:107-109 | p > 1/2 iff elo1 > elo2, and p = 1/2 iff they are equal |
| Elo.GrowthCoeff | src/ranking/ELO.py:112-130 | definition, no contract of its own: `base·beginner` below 30 games, `base·low` below 2400, `base` from 2400 on (its properties are the three lemmas below) |
| Elo.GrowthCoeffTiers | src/ranking/ELO.py:123-130 | K is `base*beginner` at 29 games, `base*low` at 30 and 2399, `base` at 2400; every count falls in one of the three tiers |
| Elo.GrowthCoeffNonNegative | src/ranking/ELO.py:123-130 | non-negative coefficients give K >= 0 |
| Elo.GrowthCoeffSlowsDown | src/ranking/ELO.py:123-130 | with `beginner >= low >= 1` and `base >= 0`, K never grows as the game count grows |
| Elo.CreditWin | src/ranking/ELO.py:82-86 | the terrain's WIN goes up by one (a new entry `{WIN:1, LOSS:0, DRAW:0}` when absent); the other counters and terrains are unchanged |
| Elo.CreditLoss | src/ranking/ELO.py:88-92 | the same for LOSS, the new entry being `{LOSS:1, WIN:0, DRAW:0}` |
| Elo.Rated | src/ranking/ELO.py:73-77 | the rating and game-list updates of both players keep the same player keys |
| Elo.Credited | src/ranking/ELO.py:79-92 | the terrain bookkeeping keeps the same player keys |
| Elo.AfterGame | src/ranking/ELO.py:61-92 | the whole `processGame` update of the players table keeps the same player keys |
| Elo.Predicted | src/ranking/ELO.py:65-67 | definition, no contract of its own: the returned `probWin1 > probWin2` (line 95), with `probWin2 = 1 - probWin1` (its meaning is `PredictedIffRatedHigher`) |
| Elo.PredictedIffRatedHigher | src/ranking/ELO.py:65-95 | `processGame` returns true iff the winner was rated strictly higher |
| Elo.TwoPlayerGame | src/ranking/ELO.py:74-77 | between two players: the winner gains `K_w·(1-p)` and the loser loses `K_l·(1-p)`, each K from the games count before the append; both `GAMES` end with the game's ID; nobody else changes |
| Elo.TwoPlayerTerrain | src/ranking/ELO.py:79-92 | with a terrain: winner's WIN +1 and loser's LOSS +1 on it, other terrains unchanged; without one, neither table changes |
| Elo.RatingsMoveApart | src/ranking/ELO.py:74-77 | with non-negative coefficients the winner never loses points and the loser never gains |
| Elo.RatingSumPreserved | src/ranking/ELO.py:74-77 | when both Ks are equal, the sum of the two ratings is unchanged |
| Elo.SelfGame | src/ranking/ELO.py:61-92 | a player beating themself: rating moves by `K(n)/2 - K(n+1)/2`, the ID is appended twice, WIN and LOSS both go up |
| Elo.DebutExample | src/ranking/ELO.py:65-95 | two new 1500 players with K = 32 end at 1516 and 1484, and the game counts as not predicted |
| Elo.PlayGame | src/ranking/ELO.py:61-95 | the body of `processGame`, step by step, computes `AfterGame` and returns `Predicted` |
| Elo.Database.ProcessGame | src/ranking/ELO.py:55-95 | the players table becomes `AfterGame`, the game is marked processed, the prediction is returned, the tables stay consistent |
| Elo.Database.ProcessPending | src/ranking/ELO.py:40-43 | a processed game is skipped and not counted; an unprocessed one is processed and counted |
| Elo.Database.ProcessInOrder | src/ranking/ELO.py:39-43 | the loop over the ordered IDs leaves the tables and counters `ReplayFrom` describes |
| Elo.Database.ProcessGames | src/ranking/ELO.py:20-52 | the tables become `ProcessAll` of the old tables; the result is correct/total, or 0 when nothing was processed |
| Elo.NextConsistent | src/ranking/ELO.py:94 | setting one game's flag and applying `AfterGame` to its players keeps the tables consistent |
| Elo.Engine | src/ranking/ELO.py:35-95 | the ELO engine fits the shared replay loop (`Replays.Sound`), and on a playable game its step is `AfterGame` and its prediction is `Predicted` |
| Elo.SuccessRate | src/ranking/ELO.py:49-51 | definition, no contract of its own: `correct/total`, or 0 when no game was processed (its bounds are `FractionBounds`) |
| Elo.FractionBounds | src/ranking/ELO.py:49-51 | the success rate lies in [0, 1] |
| Elo.SuccessRateBounds | src/ranking/ELO.py:35-52 | the success rate of the replay of all games lies in [0, 1] |
| Elo.SecondRunIdle | src/ranking/ELO.py:35-52 | an immediate second `processGames` returns 0 and changes no table |
| Elo.Evaluation | src/ranking/ELO.py:158-165 | the stored row carries the two varied coefficients, low multiplier 1, and a success rate in [0, 1] |
| Elo.Evaluator | src/ranking/ELO.py:158-165 | the evaluation on the fresh tables, as a function of the two coefficients |
| Elo.EvaluateIfAbsent | src/ranking/ELO.py:154-165 | an absent key gets the evaluated row, appended last; an existing key is left alone; the key is present afterwards |
| Elo.GridStep | src/ranking/ELO.py:151-165 | one iteration keeps the invariants: old rows kept, new rows are grid evaluations, grid points so far covered |
| Elo.OptimizeGrowthCoeff | src/ranking/ELO.py:133-169 | existing rows are never overwritten and keep their order; every grid key is present; every new row is the evaluation of a grid point with that key |
| Mmr.Kappa | src/ranking/MMR.py:87 | with σ != 0, κ = 1/(1 + (γ/σ)²) lies in (0, 1] |
| Mmr.BlendWeights | src/ranking/MMR.py:88-89 | wg > 0 and wl >= 0 |
| Mmr.Diffused | src/ranking/MMR.py:82-96 | definition, no contract of its own: the record after `diffuse`, i.e. blended `PERF_HISTORY[0]`, weight 0 set to κ(wg+wl), every weight scaled by κ^(1+ρ), deviation divided by √κ (its properties are the `Diffused...` lemmas; `Diffuse` computes it) |
| Mmr.DiffusedShape | src/ranking/MMR.py:87-96 | `diffuse` keeps lengths, skill and games; changes only history index 0; sets weight 0 to κ(wg+wl), then scales every weight by κ^(1+ρ) |
| Mmr.DiffusedPrior | src/ranking/MMR.py:91 | the new history[0] is a weighted average of the old one and the skill, lying between them |
| Mmr.DiffusedDeviation | src/ranking/MMR.py:96 | the deviation is divided by √κ, stays positive, and the record stays well formed |
| Mmr.DiffusedTotalWeight | src/ranking/MMR.py:88-95 | the new total weight is (the old total - w0 + κ(wg+wl))·κ^(1+ρ) |
| Mmr.DiffusedWeights | src/ranking/MMR.py:92-95 | the new weights are the old ones with slot 0 replaced, all scaled by κ^(1+ρ) |
| Mmr.Diffuse | src/ranking/MMR.py:82-96 | the in-place `diffuse` computes `Diffused` |
| Mmr.ScaleWeights | src/ranking/MMR.py:94-95 | the index loop multiplies every weight by the factor |
| Mmr.Scaled | src/ranking/MMR.py:94-95 | same length, entry j is `w[j]·f` |
| Mmr.SumScaled | src/ranking/MMR.py:89 | scaling every weight scales `sum()` |
| Mmr.SumUpdate | src/ranking/MMR.py:89-92 | replacing one weight changes the sum by the difference |
| Mmr.Sum | src/ranking/MMR.py:89 | definition, no contract of its own: `sum(l)`, added from left to right (its properties are `SumPositive`, `SumUpdate`, `SumScaled`) |
| Mmr.SumPositive | src/ranking/MMR.py:89 | positive weights have a positive sum |
| Mmr.SumOfSquares | src/ranking/MMR.py:66 | `σ**2 + β**2` is positive when β != 0 |
| Mmr.Inflated | src/ranking/MMR.py:66 | definition, no contract of its own: the deviation replaced by `sqrt(σ**2 + β**2)`, every other field kept |
| Mmr.Prepared | src/ranking/MMR.py:64-66 | definition, no contract of its own: `diffuse` followed by the inflation (its property is `PreparedDeviation`) |
| Mmr.PreparedDeviation | src/ranking/MMR.py:64-66 | after diffusion and inflation σ'² = σ²/κ + β², so the deviation never decreases |
| Mmr.InflationBound | src/ranking/MMR.py:66 | σ = d·√κ and σ'² = d² + β² give σ'² = σ²/κ + β² >= σ² |
| Mmr.PerfObjective | src/ranking/MMR.py:134-142 | definition, no contract of its own: the performance equation, terms with `- 1` over `[0:i+1]` plus terms with `+ 1` over `[i:]` |
| Mmr.PerfEstimation | src/ranking/MMR.py:129-144 | definition, no contract of its own: `findZero` (`Utils.Bisection`) of `PerfObjective` (`GetPerfEstimation` computes it) |
| Mmr.SkillObjective | src/ranking/MMR.py:119-124 | definition, no contract of its own: the prior term `w0·(x - h0)` plus one `tanh` term per past performance, index 0 included |
| Mmr.SkillEstimation | src/ranking/MMR.py:114-126 | definition, no contract of its own: `findZero` of `SkillObjective` (`GetAverageSkillEstimation` computes it) |
| Mmr.GetPerfEstimation | src/ranking/MMR.py:129-144 | returns the `findZero` of the performance equation, in `[-1e4, 1e4)` |
| Mmr.GetAverageSkillEstimation | src/ranking/MMR.py:114-126 | returns the `findZero` of the skill equation, in `[-1e4, 1e4)` |
| Mmr.PerfSumReadsRatings | src/ranking/MMR.py:134-142 | the performance sum reads only the participants' skills and deviations |
| Mmr.PerfEstimationReadsRatings | src/ranking/MMR.py:129-144 | a performance estimate depends only on skills and deviations, so the order of the per-position updates does not matter |
| Mmr.PerfEstimationNearRoot | src/ranking/MMR.py:129-144 | if the performance equation changes sign over the bracket, the estimate is near a zero |
| Mmr.NewWeight | src/ranking/MMR.py:107 | `1/β**2` is positive |
| Mmr.AppendKeepsWellFormed | src/ranking/MMR.py:106-107 | appending a performance and a positive weight keeps the lists equal-length with positive weights |
| Mmr.Updated | src/ranking/MMR.py:99-111 | definition, no contract of its own: the performance and 1/β² appended, then the skill re-solved on the extended record (its meaning is `UpdatedSpec`; `Update` computes it) |
| Mmr.UpdatedSpec | src/ranking/MMR.py:99-111 | `update` appends the performance estimated from the ranking and 1/β²; the skill becomes the new zero; deviation and games are kept |
| Mmr.Update | src/ranking/MMR.py:99-111 | the method computes `Updated` |
| Mmr.MaxOf | src/ranking/MMR.py:62 | `max` of a non-empty list bounds every element |
| Mmr.MaxOfAttained | src/ranking/MMR.py:62 | the maximum is one of the elements |
| Mmr.RankingSkills | src/ranking/MMR.py:61 | one pessimistic rating per ranked player |
| Mmr.Predicted | src/ranking/MMR.py:61-62 | definition, no contract of its own: the first-ranked player's `SKILL - 3·SKILL_DEVIATION` equals the `max` of all of them (its meaning is `PredictedIffWinnerBest`) |
| Mmr.PredictedIffWinnerBest | src/ranking/MMR.py:61-62 | the result counts as predicted iff no participant has a higher `SKILL - 3·SKILL_DEVIATION` than the winner |
| Mmr.PrepareAll | src/ranking/MMR.py:64-66 | the diffuse-and-inflate loop keeps the players and their well-formedness |
| Mmr.PrepareAllSpec | src/ranking/MMR.py:64-66 | with no duplicates, each participant is diffused and inflated once and everybody else is unchanged |
| Mmr.Snapshot | src/ranking/MMR.py:71 | definition, no contract of its own: the participants' current records in ranking order, the list of copies given to `update` |
| Mmr.Updates | src/ranking/MMR.py:68-71 | definition, no contract of its own: `new_dicts`, every participant's `Updated` against the same snapshot |
| Mmr.WriteBack | src/ranking/MMR.py:74-75 | definition, no contract of its own: stores `new_dicts[i]` under `RANKING[i]` in order (its meaning is `WriteBackSpec`) |
| Mmr.WriteBackSpec | src/ranking/MMR.py:74-75 | `RANKING[i]` ends up holding `new_dicts[i]`, the key set grows by the ranking only, and nobody else changes |
| Mmr.PreparedRanking | src/ranking/MMR.py:68-71 | the snapshot handed to `update` is well formed with positive deviations |
| Mmr.AfterGame | src/ranking/MMR.py:53-79 | `processGame` keeps the same players, all well formed |
| Mmr.AfterGameSpec | src/ranking/MMR.py:64-75 | the participant at place i becomes `update` of the prepared ranking at i; non-participants are unchanged |
| Mmr.SnapshotPrepared | src/ranking/MMR.py:68-71 | the copies given to `update` are the diffused and inflated participants |
| Mmr.ParticipantAfterGame | src/ranking/MMR.py:64-111 | each participant: σ'² = σ²/κ + β², histories diffused with one new performance and weight 1/β² appended, games kept, skill in the search interval |
| Mmr.PrepareParticipants | src/ranking/MMR.py:64-66 | the loop computes `PrepareAll` |
| Mmr.UpdateParticipants | src/ranking/MMR.py:68-71 | the loop computes every participant's update against the same snapshot |
| Mmr.ApplyUpdates | src/ranking/MMR.py:74-75 | the loop computes `WriteBack` |
| Mmr.NextConsistent | src/ranking/MMR.py:77 | setting one playable game's flag and applying `AfterGame` to its ranking keeps the tables consistent |
| Mmr.Engine | src/ranking/MMR.py:36-79 | the MMR engine fits the shared replay loop (`Replays.Sound`), and on a playable ranking its step is `AfterGame` and its prediction is `Predicted` |
| Mmr.SuccessRate | src/ranking/MMR.py:50 | definition, no contract of its own: `predicted_output / total_processed_games`, or nothing when the divisor is zero (its bounds are `FractionBounds`) |
| Mmr.FractionBounds | src/ranking/MMR.py:50 | the quotient, when defined, lies in [0, 1] |
| Mmr.RateDefinedIffPending | src/ranking/MMR.py:36-50 | the returned rate is missing (the division by zero) iff every game was already processed; otherwise it lies in [0, 1] |
| Mmr.SecondRunFails | src/ranking/MMR.py:36-50 | an immediate second `processGames` divides by zero and changes no table |
| Mmr.Joined | src/ranking/MMR.py:164-165 | definition, no contract of its own: the loop appending the game ID to `GAMES` of each ranked player in turn (its meaning is `JoinedSpec`) |
| Mmr.Repeat | src/ranking/MMR.py:164-165 | n copies of the game ID |
| Mmr.JoinedSpec | src/ranking/MMR.py:164-165 | every player gets the game ID appended once per place in the ranking; nothing else changes |
| Mmr.CreatedConsistent | src/ranking/MMR.py:147-165 | a new game with a playable ranking keeps the tables consistent |
| Mmr.Database.ProcessGame | src/ranking/MMR.py:53-79 | the players table becomes `AfterGame`, the game is flagged, the prediction is returned, consistency is kept |
| Mmr.Database.ProcessPending | src/ranking/MMR.py:40-42 | a processed game is skipped and not counted; an unprocessed one is processed and counted |
| Mmr.Database.ProcessInOrder | src/ranking/MMR.py:39-42 | the loop over the ordered IDs leaves the tables and counters `ReplayFrom` describes |
| Mmr.Database.ProcessGames | src/ranking/MMR.py:25-50 | the tables become `ProcessAll`; the result is predicted/total, or nothing (the division by zero) when nothing was processed |
| Mmr.Database.CreateGame | src/ranking/MMR.py:147-165 | stores the unprocessed game under its ID and appends the ID to every ranked player's games |
| Mmr.Evaluation | src/ranking/MMR.py:189-201 | the row has the given γ, β, ρ and a rate in [0, 1]; there is no row iff every game was already processed |
| Mmr.Evaluator | src/ranking/MMR.py:194 | the evaluation on the fresh tables, as a function of γ, β and ρ |
| Mmr.EvaluateIfAbsent | src/ranking/MMR.py:188-201 | an absent key gets the evaluated row, appended last; an existing key is left alone; a failing evaluation changes nothing |
| Mmr.GridStep | src/ranking/MMR.py:185-201 | one iteration keeps old rows and makes new rows grid evaluations |
| Mmr.SearchRhos | src/ranking/MMR.py:187-201 | the inner ρ loop covers its grid row, or stops at a failing evaluation with the table unchanged |
| Mmr.OptimizeHyperparameters | src/ranking/MMR.py:168-204 | existing rows are never overwritten; every new row is a grid evaluation; on completion every grid key is present; it stops early only when all fresh games were already processed, and then the table is unchanged |

## Left out

- File and JSON I/O is left out: `open`, `load`, `dump`, the `commit` branches and `getDBPath`. `commit` has no effect on the returned rate. The optimizers receive the reloaded database as `freshGames`/`freshPlayers` parameters. Writing the configuration table is not modelled.
- Logging, `plotSuccessRate` (matplotlib), the user interface and application startup are left out: none of them affects the ratings.
- Floating point is not modelled. All arithmetic is on exact reals. `10 ** x` (ELO), `sqrt`, `tanh` and `κ ** y` (MMR) are parameters. Only the facts the proofs use are stated about them: 10^x is positive, 10^x·10^-x = 1, and 10^x > 1 for x > 0; `sqrt` is a non-negative square root; `pow(κ, y)` lies in (0, 1] for κ in (0, 1] and y >= 0. `math.pi` and `math.sqrt(3)` appear as named constants inside the sums.
- The grid ranges (`linspace(30,40)`, `linspace(0.1,10)`, `[1]`, `[0.001]`, `[10000]`) are sequence parameters, so the ranges themselves are not modelled.
- The f-string configuration key is a caller-supplied function `configKey`. Whether two grid points print to the same key is not modelled.
- Mmr.OptimizeHyperparameters: `optimizeHyperparameters` returns None and leaves its result in the configuration file. The model returns the table it would write, plus a `completed` flag that is false where `processGames` raises.
- Mmr.OptimizeHyperparameters: the model requires β != 0 and ρ >= 0 for every grid point (`ValidRanges`). The source divides by β and raises κ to powers of ρ. Its fixed ranges satisfy both conditions.
- Mmr.Database.ProcessGames: requires β != 0 and ρ >= 0 (`ValidHyper`). The source documents β in [0, inf[, but with β = 0 it raises ZeroDivisionError at `1 / β ** 2` (`src/ranking/MMR.py:107`) and in the skill equation (`src/ranking/MMR.py:122`); that error path is not modelled. The facts stated about `κ ** y` hold only for y >= 0. With ρ < 0 the source still computes, but `wl` turns negative. No caller passes a negative ρ: the default is 1 and the search uses 10000.
- Mmr.Database.ProcessGame: requires β != 0 and ρ >= 0 (`ValidHyper`), for the reasons given for `ProcessGames`.
- Mmr.Diffuse: requires ρ >= 0 and nothing of β, which `diffuse` does not read (`src/ranking/MMR.py:80-94`). The facts stated about `κ ** y` hold only for y >= 0; with ρ < 0 the source still computes, but `wl` turns negative. `Diffused`, `Prepared`, `PrepareAll` and their lemmas carry the same requirement.
- Mmr.Update: requires β != 0; with β = 0 the source raises ZeroDivisionError at `src/ranking/MMR.py:107`.
- Mmr.GetAverageSkillEstimation: requires β != 0; with β = 0 the skill equation divides by zero at `src/ranking/MMR.py:122`.
- Mmr.Playable: the ranking must be non-empty (`max([])` raises) and list every player at most once. With a player listed twice, the shallow copies made for `update` would share their lists, so `processGame` would append twice into the same list; that aliasing is not modelled.
- Mmr.Consistent: every player record is assumed well formed: positive deviation, equal-length non-empty lists, positive weights. Every game's `ID` field is assumed equal to its key in the games table. `processGames` looks the IDs from `orderGamesTable` up again (`src/ranking/MMR.py:42`). With a mismatched ID it would raise `KeyError` or read another game. The source relies on both assumptions without checking them.
- Mmr.Database.ProcessGame: a player ID missing from the table is a precondition violation, where the source raises `KeyError`. The comment at `src/ranking/MMR.py:60` says unknown players are added, but no code does so; the model follows the code.
- Elo.Consistent: both players of every game still to be processed must be in the table; the source raises `KeyError` otherwise (`src/ranking/ELO.py:61-62`). Every player record is assumed to carry `FAV_TERRAIN`, which the model always holds as a map. A player without it, in a game with a non-empty terrain, makes the source raise `KeyError` at `src/ranking/ELO.py:82` or `src/ranking/ELO.py:88`. By then both players' `ELO` and `GAMES` are already changed (`src/ranking/ELO.py:74-77`) and the game is never flagged (`src/ranking/ELO.py:94`). That half-finished update is not modelled. Every game's `ID` field must equal its key. `processGames` looks the IDs from `orderGamesTable` up again (`src/ranking/ELO.py:40`). With a mismatched ID it would raise `KeyError` or read another game.
- Elo.Database.ProcessGame: both players of the game must be in the table. The source raises `KeyError` at `src/ranking/ELO.py:61-62` otherwise; that error path is not modelled.
- Mmr.Database.CreateGame: every ranked ID must already be in the players table. The source raises `KeyError` at `src/ranking/MMR.py:165` otherwise. By then the game is already stored (`src/ranking/MMR.py:157-162`) and the players earlier in the ranking already have the ID appended. That error path and its half-finished update are not modelled.
- The accumulator loops inside the `estimationFunction` closures of `getPerfEstimation` and `getAverageSkillEstimation` are recursive sums (`PerfSum`, `SkillSum`), not methods. Each closure is handed to `findZero` as a function value, and a Dafny function cannot call a method.
- Mmr.MaxOf: Python's `max` is modelled as a function, not a loop.
- Elo.Rated: a game whose winner is also its loser is modelled by re-reading the loser's record after the winner's update. This is what the shared dict does; Dafny records are values, so there is no aliasing to model beyond that.
- Elo.Evaluation, Mmr.Evaluation: the rate of a configuration is stated through the replay specification (`Replays.ProcessAll`). It is not computed from concrete data.
- The ratings, skills and performances are not computed concretely, and the model does not prove that the skill and performance estimates converge.
