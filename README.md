# Element alchemy game engine, modelled in Dafny

This project models the game-state engine of the "Element Alchemy" browser
game (`src/utils`). The player stages two discovered elements and combines
them. A recipe table says what the pair makes. The engine then:

- marks the result discovered and logs first-time discoveries;
- scores the combination by difficulty and recomputes the level;
- keeps streak, combo-chain, usage-count and element-power counters;
- grows the combo multiplier;
- evaluates a catalogue of eighteen achievements and applies their rewards.

Beside it sits a power-up system. Four power-ups are gated by cooldown and
cost, and their effects are a multiplier boost, an element reveal, a power
surge and a hint.

Modules, one per source file plus shared support:

| file | module | models |
|---|---|---|
| `element_data.dfy` | `ElementData` | `elementData.ts`: the 35 elements, the 31 + 26 recipes, and the category and rarity getters |
| `game_state.dfy` | `GameTypes` | the `GameState` record of `gameLogic.ts`, the shared `combinationCounts` map (a class, since `combineElements` writes into it in place), discovery counting, `x \|\| 0` map reads, and `Math.round` of a percentage |
| `game_logic.dfy` | `GameLogic` | `gameLogic.ts`: recipe lookup, `combineElements`, `attemptCombination`, the queries, favourites and details, and `initializeGame`/`resetGame`; plus proofs about the recipe catalogue (shadowed recipes, results missing from the element list) |
| `achievement_system.dfy` | `Achievements` | `achievementSystem.ts`: conditions as a closed datatype with one interpreter (`Holds`), `checkAchievements`, `processAchievements` and the getters |
| `achievement_scenarios.dfy` | `AchievementScenarios` | the first-compound scenario: water + fire in a new game unlocks four achievements |
| `power_ups.dfy` | `PowerUps` | `powerUpsSystem.ts`: the catalogue, `isPowerUpAvailable`, the four effects and `activatePowerUp` |
| `js_strings.dfy`, `seqs.dfy`, `wrappers.dfy` | `JsStrings`, `Seqs`, `Wrappers` | JavaScript's default string order (`Array.prototype.sort` on a pair), its decimal rendering of numbers, `filter`, and `Option` |

Modelling choices:

- The combo multiplier is kept in integer tenths: 1.0 is 10 and the cap 3.0 is 30.
  `Math.round(x)` is rounding half up, so the power gain is `(base * m + 5) / 10`.
- `Date.now()` is a `now` parameter in milliseconds.
  Each `Math.random()` draw is a natural-number parameter `...Pick`, and `Math.floor(Math.random() * n)` is `pick % n`.
- Achievement conditions and power-up effects are closures in the source.
  Here they are the datatypes `Condition` and `Effect`, with `Holds` and `EffectResult` as their meanings.
- `combineElements` increments `combinationCounts` in the map the input state holds.
  That map is therefore a `CountTable` object, shared by the old and the new state, and `CombineElements` modifies it.
  `processAchievements` overwrites `lastUnlocked` on the achievement state it was given.
  `AchievementState` is a class, and `ProcessAchievements` both writes the old object and returns a fresh one, as the source does.
- The recipe table is a parameter `rs` of the lookup functions.
  The game passes `GetAllCombinations()`, and the catalogue lemmas fix it to that.

Behaviour of the code worth noting:

- Five unordered pairs appear twice in the recipe tables.
  `findCombination` returns the first match, so the later recipe of each can never be found (`SmokeIsShadowed`, `LifeRecipeIsShadowed`, `PlantRecipeIsShadowed`, `GlassFromStoneIsShadowed`, `RobotIsShadowed`).
  A consequence: life and plant cannot be made by combining at all (`LifeAndPlantNeverCombined`), only revealed by the power-up.
- The "most elements" hint needs strictly more than 80% discovered (`5 * d > 4 * n`).
- A power-up whose `lastUsed` is 0 counts as never used, because the source tests `if (powerUp.lastUsed)`.
- Power gain and the multiplier step apply on every successful combination, since the guard around them is `if (true)`.
- `multiplier_boost` doubles the multiplier without the 3.0 cap, so that cap is not a global invariant (`BoostExceedsCap`).

## Model

| member | source | states |
|---|---|---|
| ElementData.GetAllCombinations | src/utils/elementData.ts:166-168 | the joined table is the main recipes followed by the extra ones, in order, with the sum of their lengths |
| ElementData.InitialElements | src/utils/elementData.ts:23-72 | the 35 starting elements in source order; `InitialIdsDistinct`, `InitialDiscoveredAreTheBasics` and the scenario lemmas state its facts |
| ElementData.Combinations | src/utils/elementData.ts:75-120 | the 31 main recipes in source order; the catalogue lemmas of `GameLogic` (shadowed pairs, missing results) state its facts |
| ElementData.ExtraCombinations | src/utils/elementData.ts:123-163 | the 26 extra recipes in source order; `GetAllCombinations` appends them after the main ones |
| ElementData.Ids | src/utils/elementData.ts:23-72 | the ids of an element list, position by position |
| ElementData.InitialIdsDistinct | src/utils/elementData.ts:23-72 | the initial element list has 35 elements with pairwise distinct ids |
| ElementData.InitialIdsRowsA | src/utils/elementData.ts:25-32 | ids 0-5 of the initial list differ from every later id |
| ElementData.InitialIdsRowsB | src/utils/elementData.ts:33-40 | ids 6-11 differ from every later id |
| ElementData.InitialIdsRowsC | src/utils/elementData.ts:41-54 | ids 12-21 differ from every later id |
| ElementData.InitialIdsRowsD | src/utils/elementData.ts:55-71 | ids 22-34 differ from every later id |
| ElementData.InitialDiscoveredAreTheBasics | src/utils/elementData.ts:25-71 | the first four elements are air, water, fire and earth, and an element starts discovered exactly when it is one of those four |
| ElementData.InitialBasicsAreTheFirstFour | src/utils/elementData.ts:25-71 | an initial element is in the basic category exactly when it is one of the first four |
| ElementData.GetElementsByCategory | src/utils/elementData.ts:171-173 | exactly the elements of that category, in their original order; the result is a subsequence of the input and holds every occurrence of each kept value and none of any other |
| ElementData.GetElementsByCategorySnoc | src/utils/elementData.ts:171-173 | appending an element appends it to its own category's list and leaves the others alone |
| ElementData.GetElementsByCategoryNone | src/utils/elementData.ts:171-173 | a list without the category yields the empty list |
| ElementData.GetElementsByRarity | src/utils/elementData.ts:176-178 | exactly the elements of that rarity, in their original order; the result is a subsequence of the input and holds every occurrence of each kept value and none of any other |
| ElementData.GetAllCategories | src/utils/elementData.ts:181-183 | the five categories, each once |
| ElementData.GetAllRarities | src/utils/elementData.ts:186-188 | the four rarities, each once |
| GameTypes.FreshGameState | src/utils/gameLogic.ts:74-91 | a new game: the initial elements, no discoveries, empty slots, level 1, score 0, multiplier 1.0, no power |
| GameTypes.Discovered | src/utils/gameLogic.ts:375-382 | the discovered elements are exactly those flagged discovered, in list order; the result is a subsequence of the input and holds every occurrence of each kept value and none of any other |
| Seqs.Filter | src/utils/elementData.ts:172 | `Array.prototype.filter`: exactly the elements meeting the predicate, as a subsequence of the input, with every occurrence of each kept value and none of any other |
| GameTypes.DiscoveredCount | src/utils/gameLogic.ts:234-236 | the discovered count never exceeds the number of elements |
| GameTypes.DiscoveredCountUnfold | src/utils/gameLogic.ts:234-236 | the count is the first element's contribution plus the count of the rest |
| GameTypes.DiscoveredUnfold | src/utils/gameLogic.ts:375-382 | the discovered list is the first element, if discovered, followed by the discovered rest |
| GameTypes.MarkDiscovered | src/utils/gameLogic.ts:199-203 | same length, ids, names, categories and rarities; an element is discovered afterwards exactly when it was before or has the marked id |
| GameTypes.UndiscoveredWithId | src/utils/gameLogic.ts:199-203 | exactly the undiscovered elements that carry the id, in list order; the result is a subsequence of the input and holds every occurrence of each kept value and none of any other |
| GameTypes.MarkDiscoveredCount | src/utils/gameLogic.ts:199-203 | marking an id raises the discovered count by the number of undiscovered elements with that id |
| GameTypes.UndiscoveredWithIdDistinct | src/utils/gameLogic.ts:196-203 | with distinct ids, at most one element is marked, and one exactly when an undiscovered element has the id |
| GameTypes.AddPowers | src/utils/gameLogic.ts:277-280 | the loop adding the gain to each input id computes `AddEach` |
| GameTypes.AddEachSnoc | src/utils/gameLogic.ts:278-280 | one more id adds the amount to that id's entry, read as `x \|\| 0` |
| GameTypes.AddEachPointwise | src/utils/gameLogic.ts:245-247 | each entry grows by the amount times the number of times its id occurs, so a self-pair counts twice |
| GameTypes.AddEachKeys | src/utils/gameLogic.ts:245-247 | the keys afterwards are the old keys plus the ids |
| GameTypes.AddEachSwap | src/utils/gameLogic.ts:245-247 | adding for `[a, b]` and for `[b, a]` gives the same map |
| GameTypes.AddEachPair | src/utils/gameLogic.ts:278-280 | for a pair, each entry grows by the amount once per occurrence of its id in the pair |
| GameTypes.CountTable.constructor | src/utils/gameLogic.ts:84 | a count table holding the given map |
| GameTypes.RoundPercent | src/utils/gameLogic.ts:447 | the result is the rational percentage rounded half up |
| GameTypes.RoundPercentBounds | src/utils/gameLogic.ts:447 | a part of the whole rounds to a percentage between 0 and 100 |
| GameTypes.RoundPercentWhole | src/utils/gameLogic.ts:447 | the whole is 100% |
| GameTypes.RoundPercentNone | src/utils/gameLogic.ts:447 | nothing is 0% |
| GameTypes.RoundPercentMonotone | src/utils/gameLogic.ts:447 | a larger part never gives a smaller percentage |
| JsStrings.LexLessIrreflexive | src/utils/gameLogic.ts:146 | no string sorts before itself |
| JsStrings.LexLessTrichotomy | src/utils/gameLogic.ts:146 | two strings are equal or exactly one sorts first |
| JsStrings.SortPair | src/utils/gameLogic.ts:146 | the sorted pair is the pair or its swap, in non-decreasing order |
| JsStrings.SortPairSymmetric | src/utils/gameLogic.ts:146 | sorting a pair does not depend on its order |
| JsStrings.NatToString | src/utils/gameLogic.ts:207 | the decimal digits of the timestamp that form a discovery id: nonempty, digits only, without a leading zero, and denoting the number itself (`DigitsValue(s) == n`), so distinct timestamps give distinct ids |
| GameLogic.FirstMatchIndex | src/utils/gameLogic.ts:152-155 | the index of the first recipe matching the pair in either order, or none when no recipe matches |
| GameLogic.FirstMatchAt | src/utils/gameLogic.ts:152-155 | a matching recipe with no match before it is the one found |
| GameLogic.FirstMatchIndexSymmetric | src/utils/gameLogic.ts:152-155 | the first match of a pair and of its swap are the same index |
| GameLogic.FindCombination | src/utils/gameLogic.ts:146-155 | a found recipe is in the table and matches the pair; none is found only when no recipe matches |
| GameLogic.FindCombinationIsFirst | src/utils/gameLogic.ts:146-155 | the recipe found is the first match in table order |
| GameLogic.FindCombinationSymmetric | src/utils/gameLogic.ts:146-155 | looking up `(a, b)` and `(b, a)` finds the same recipe |
| GameLogic.FindCombinationUnsorted | src/utils/gameLogic.ts:574-579 | the unsorted re-lookup in `attemptCombination` finds the same recipe as the sorted lookup |
| GameLogic.FindElement | src/utils/gameLogic.ts:176 | the index of the first element with the id, or none when no element has it |
| GameLogic.GetElementByID | src/utils/gameLogic.ts:366-373 | a found element is in the state and has the id; none only when no element has it |
| GameLogic.GetDiscoveredElements | src/utils/gameLogic.ts:375-382 | exactly the discovered elements, in their original order; the result is a subsequence of the input and holds every occurrence of each kept value and none of any other |
| GameLogic.PointsOrdering | src/utils/gameLogic.ts:215-231 | every success scores; a new discovery scores more than a repeat; a harder listed difficulty scores more |
| GameLogic.BasePower | src/utils/gameLogic.ts:113-118 | the base power is at least 1 |
| GameLogic.BasePowerDoubles | src/utils/gameLogic.ts:113-118 | the base power is 2 to the difficulty's rank (1, 2, 4, 8), and 1 without a difficulty |
| GameLogic.CalculatePowerGain | src/utils/gameLogic.ts:112-121 | the gain is base power times multiplier, rounded half up |
| GameLogic.PowerGainRange | src/utils/gameLogic.ts:112-121 | with the multiplier in [1.0, 3.0] the gain lies between the base power and three times it |
| GameLogic.NextMultiplier | src/utils/gameLogic.ts:283 | the multiplier grows by 0.1 and never passes 3.0 |
| GameLogic.LookUp | src/utils/gameLogic.ts:146-193 | no recipe exactly when the table has none for the pair; a found result is an element of the state with the recipe's result id; a missing result has no element with that id |
| GameLogic.DiscoveryRecord | src/utils/gameLogic.ts:206-212 | the record's pair is the input pair or its swap, sorted |
| GameLogic.ApplyRewards | src/utils/gameLogic.ts:300-338 | rewards keep the element list's length and ids and never undiscover an element |
| GameLogic.ApplyRewardsNoElement | src/utils/gameLogic.ts:300-338 | category and hint rewards leave the elements unchanged |
| GameLogic.ApplyRewardsInOrder | src/utils/gameLogic.ts:300-338 | the reward loop computes `ApplyRewards` |
| GameLogic.IncrementCounts | src/utils/gameLogic.ts:244-247 | the shared count table grows by one per occurrence of each input id |
| GameLogic.SuccessState | src/utils/gameLogic.ts:196-290 | the state built step by step on success is `Succeeded` |
| GameLogic.CombineFound | src/utils/gameLogic.ts:196-363 | on a found result: counts updated in place, achievements checked against the new state, rewards applied, `lastUnlocked` written to both achievement states, and a discovery returned exactly when the result was new |
| GameLogic.CombineElements | src/utils/gameLogic.ts:123-364 | success exactly when the lookup finds a recipe and its result; the new state is `CombinedState`; on failure nothing else changes; on success as in `CombineFound` |
| GameLogic.CombineFailure | src/utils/gameLogic.ts:157-193 | no recipe or a missing result clears the slots, resets the streak, records a failure and changes nothing else |
| GameLogic.CombineDiscovers | src/utils/gameLogic.ts:196-203 | on success the result becomes discovered and no element loses its discovered flag or its id |
| GameLogic.CombineScores | src/utils/gameLogic.ts:215-268 | on success the score rises by the difficulty table's points, the streak and the combo chain grow by one, the max chain is the larger of the two, and the slots clear |
| GameLogic.CombineLogsDiscovery | src/utils/gameLogic.ts:205-258 | one discovery record is prepended, with the result and `now`, exactly when the result was new |
| GameLogic.CombinePowers | src/utils/gameLogic.ts:274-290 | each input id's power grows by the gain once per occurrence; the total grows by it once; the multiplier takes its next step |
| GameLogic.SucceededSymmetric | src/utils/gameLogic.ts:196-290 | the success state does not depend on the order of the two ids |
| GameLogic.CombineOrderIrrelevant | src/utils/gameLogic.ts:123-290 | combining `(a, b)` and `(b, a)` gives the same state and the same count update |
| GameLogic.CombineKeepsIds | src/utils/gameLogic.ts:196-338 | a combination never adds, removes or reorders elements |
| GameLogic.LevelTracksDiscoveries | src/utils/gameLogic.ts:233-238 | on success the level is the discovered count after the combination, over 5, plus 1 |
| GameLogic.FireTableFacts | src/utils/elementData.ts:77-81 | recipe 1 is earth + fire = lava, recipe 4 is fire + earth = smoke, and recipe 0 does not match fire and earth |
| GameLogic.ComputerTableFacts | src/utils/elementData.ts:77-112 | recipe 25 is electricity + metal = computer, the first main recipe for that pair |
| GameLogic.AirWaterNotInMainTable | src/utils/elementData.ts:75-120 | no main recipe combines air and water |
| GameLogic.ExtraTableFacts | src/utils/elementData.ts:125-156 | extra recipe 12 is water + air = cloud, the first for that pair, and extra recipe 21 is metal + electricity = robot |
| GameLogic.AllCombinationsAt | src/utils/elementData.ts:166-168 | the joined table has 57 recipes, the 31 main ones then the 26 extra ones |
| GameLogic.FireAndEarthMakeLava | src/utils/elementData.ts:78 | fire and earth, in either order, make lava |
| GameLogic.ShadowedNeverFound | src/utils/gameLogic.ts:152-155 | a recipe preceded by another recipe for the same pair is never found |
| GameLogic.ShadowedInMainTable | src/utils/elementData.ts:75-120 | the same for a shadowed recipe of the main table, in the joined table |
| GameLogic.SmokeIsShadowed | src/utils/elementData.ts:78-81 | the fire + earth = smoke recipe is never found |
| GameLogic.RobotIsShadowed | src/utils/elementData.ts:112-156 | the metal + electricity = robot recipe is never found |
| GameLogic.WaterEnergyTableFacts | src/utils/elementData.ts:77-92 | recipe 9 is water + energy = salt, recipe 11 energy + water = life, and nothing earlier matches the pair |
| GameLogic.EarthLifeTableFacts | src/utils/elementData.ts:77-94 | recipe 7 is earth + life = wood, recipe 13 life + earth = plant, and nothing earlier matches the pair |
| GameLogic.FireStoneTableFacts | src/utils/elementData.ts:77-109 | recipe 6 is fire + stone = metal, recipe 22 stone + fire = glass, and nothing earlier matches the pair |
| GameLogic.LifeRecipeIsShadowed | src/utils/elementData.ts:88-92 | the energy + water = life recipe is never found |
| GameLogic.PlantRecipeIsShadowed | src/utils/elementData.ts:86-94 | the life + earth = plant recipe is never found |
| GameLogic.GlassFromStoneIsShadowed | src/utils/elementData.ts:85-109 | the stone + fire = glass recipe is never found |
| GameLogic.LifeAndPlantTableFacts | src/utils/elementData.ts:75-163 | only main recipe 11 yields life and only main recipe 13 yields plant |
| GameLogic.LifeAndPlantNeverCombined | src/utils/elementData.ts:75-163 | no pair of ids makes life or plant |
| GameLogic.AirAndWaterFindCloud | src/utils/elementData.ts:143 | the lookup for air and water finds the cloud recipe |
| GameLogic.NoCloudAmong | src/utils/elementData.ts:23-72 | no element of a state with the initial ids is cloud |
| GameLogic.MissingResultFails | src/utils/gameLogic.ts:176-193 | a found recipe whose result is not an element ends like no recipe at all |
| GameLogic.AirAndWaterAlwaysFail | src/utils/elementData.ts:143 | air + water finds the cloud recipe, cloud is not an element, so the combination always fails |
| GameLogic.GroupByCategoryKeys | src/utils/gameLogic.ts:391-398 | the grouping has a key exactly for each category present |
| GameLogic.GroupByCategory | src/utils/gameLogic.ts:391-398 | the `reduce` that groups a list by category; `GroupByCategoryKeys` and `GroupByCategoryValues` state its keys and groups |
| GameLogic.GroupByCategoryValues | src/utils/gameLogic.ts:391-398 | each group is the elements of that category, in order |
| GameLogic.GroupDiscoveredByCategoryKeys | src/utils/gameLogic.ts:384-399 | a category is a key exactly when some discovered element has it |
| GameLogic.GroupDiscoveredByCategory | src/utils/gameLogic.ts:384-399 | the discovered elements grouped by category; `GroupDiscoveredByCategoryKeys` and `GroupDiscoveredByCategoryValues` state its keys and groups |
| GameLogic.GroupDiscoveredByCategoryValues | src/utils/gameLogic.ts:384-399 | each group is the discovered elements of that category, in order, and is nonempty |
| GameLogic.CategoryCountsSum | src/utils/gameLogic.ts:448-452 | the five per-category counts add up to the list's length |
| GameLogic.Percent | src/utils/gameLogic.ts:447 | a percentage exists exactly when the whole is nonzero, it is the rounded percentage `RoundPercent(part, whole)`, and a part of the whole gives a value between 0 and 100 |
| GameLogic.PointsFor | src/utils/gameLogic.ts:215-231 | the points of a success by difficulty: always positive, at least 10 for a new discovery and at most 10 for a repeat; `PointsOrdering` orders them by difficulty |
| GameLogic.GetGameStats | src/utils/gameLogic.ts:401-454 | total and discovered counts, discovered at most total; each category count is the number of discovered elements of that category, and they sum to the discovered count; the percentage is `Percent(discovered, total)`, in [0, 100], and exists exactly when there are elements |
| GameLogic.GetPossibleCombinations | src/utils/gameLogic.ts:591-619 | exactly the recipes with both inputs discovered and an existing, undiscovered result, in table order; the result is a subsequence of the input and holds every occurrence of each kept value and none of any other |
| GameLogic.GetRandomHint | src/utils/gameLogic.ts:456-507 | a suggestion exactly when some recipe is possible, naming the elements of a possible recipe; otherwise "most elements" exactly above 80%, "basics" at 6 or fewer, else the generic message; never the unreachable fallback |
| GameLogic.GetAIAssistantMessage | src/utils/gameLogic.ts:621-645 | the message's band follows the rounded percentage's thresholds 10, 25, 50 and 75, both ways |
| GameLogic.AssistantBandMonotone | src/utils/gameLogic.ts:634-644 | more discoveries never move the message to a lower band |
| GameLogic.OpeningMessageUnreachable | src/utils/gameLogic.ts:634-635 | with 35 elements and at least 4 discovered, the opening message never shows |
| GameLogic.FreshGameDiscoveredCount | src/utils/gameLogic.ts:74-91 | a new game has four discovered elements |
| GameLogic.DiscoveredCountPrefix | src/utils/gameLogic.ts:234-236 | a list discovered exactly on its first `k` positions counts `k` |
| GameLogic.ViewElementDetails | src/utils/gameLogic.ts:509-524 | only the viewed element changes |
| GameLogic.ToggleFavorite | src/utils/gameLogic.ts:647-662 | the id is a favourite afterwards exactly when it was not before; a new favourite is appended at the end; removing one keeps the others in order with every occurrence; no other id and nothing else changes |
| GameLogic.ToggleFavoriteTwice | src/utils/gameLogic.ts:647-662 | toggling an id that was not a favourite twice restores the progress |
| GameLogic.AttemptCombination | src/utils/gameLogic.ts:526-589 | an empty slot changes nothing and fails; otherwise it is `combineElements` on the staged pair: success exactly when the lookup finds a recipe, the new game state, on failure the achievement state and count table untouched, on success the counts of the pair incremented in place, a fresh achievement state holding the checked list and the last unlocked id, that id also written to the old state, and the now discovered result element returned |
| GameLogic.InitializeGame | src/utils/gameLogic.ts:55-97 | a save passing the shape check is returned as it is; otherwise a new game with a fresh empty count table and all achievements locked |
| GameLogic.ResetGame | src/utils/gameLogic.ts:107-110 | a new game with a fresh empty count table and all achievements locked |
| Achievements.AchievementState.constructor | src/utils/achievementSystem.ts:19-22 | an achievement state holding the given list and last unlocked id |
| Achievements.InitializeAchievements | src/utils/achievementSystem.ts:24-214 | eighteen achievements, all locked |
| Achievements.InitialAchievementIdsDistinct | src/utils/achievementSystem.ts:24-214 | the eighteen ids are pairwise distinct |
| Achievements.InitialRewards | src/utils/achievementSystem.ts:90-115 | only `first_scientific` and `first_rare` carry a reward, a category reward for scientific and rare |
| Achievements.Checked | src/utils/achievementSystem.ts:231-244 | same length, ids, conditions and rewards; unlocked afterwards exactly when unlocked before or the condition holds; an unlocked achievement is returned unchanged |
| Achievements.NewlyUnlocked | src/utils/achievementSystem.ts:229-244 | at most one entry per achievement, each unlocked |
| Achievements.Holds | src/utils/achievementSystem.ts:32-210 | the meaning of each achievement condition on a game state; the scenario lemmas and `NewlyUnlockedMembers` state what follows from it |
| Achievements.LastUnlockedAfter | src/utils/achievementSystem.ts:286-296 | the id of the last newly unlocked achievement, or the previous value when none unlocked; `LastUnlockedIsLastFlipped` and `LastUnlockedUnchanged` state both cases |
| Achievements.NewlyUnlockedMembers | src/utils/achievementSystem.ts:237-241 | an achievement is newly unlocked exactly when it is the unlocked copy of a locked one whose condition holds |
| Achievements.NewlyUnlockedAppend | src/utils/achievementSystem.ts:229-244 | the newly unlocked list of a concatenation is the concatenation of the lists, so order is kept |
| Achievements.CheckAchievements | src/utils/achievementSystem.ts:216-247 | the loop computes `Checked` and `NewlyUnlocked` |
| Achievements.CheckIdempotent | src/utils/achievementSystem.ts:231-246 | checking the updated list again changes nothing and unlocks nothing |
| Achievements.RewardsOf | src/utils/achievementSystem.ts:270-285 | at most one reward per achievement |
| Achievements.RewardsOfMembers | src/utils/achievementSystem.ts:282-284 | a reward is collected exactly when some newly unlocked achievement carries it |
| Achievements.LastUnlockedIsLastFlipped | src/utils/achievementSystem.ts:286-296 | `lastUnlocked` becomes the id of the last achievement that flips |
| Achievements.LastUnlockedUnchanged | src/utils/achievementSystem.ts:294-296 | when nothing flips, nothing is newly unlocked and `lastUnlocked` keeps its value |
| Achievements.ProcessAchievements | src/utils/achievementSystem.ts:249-300 | the new state holds the checked list and the last unlocked id, the old state's `lastUnlocked` is overwritten with the same id, and the rewards are those of the newly unlocked achievements |
| Achievements.GetUnlockedAchievements | src/utils/achievementSystem.ts:302-304 | exactly the unlocked achievements, in list order; the result is a subsequence of the input and holds every occurrence of each kept value and none of any other |
| Achievements.GetLockedAchievements | src/utils/achievementSystem.ts:306-308 | exactly the locked achievements, in list order; the result is a subsequence of the input and holds every occurrence of each kept value and none of any other |
| Achievements.UnlockedLockedPartition | src/utils/achievementSystem.ts:302-308 | the unlocked and locked lists partition the list, as multisets and in size |
| Achievements.GetAchievementProgress | src/utils/achievementSystem.ts:310-324 | total and unlocked counts with unlocked at most total; for a nonempty list the percentage is the rounded `unlocked / total * 100`, in [0, 100], 100 when all are unlocked and 0 when none is; none for an empty list |
| AchievementScenarios.BeyondFirstCompoundFails | src/utils/achievementSystem.ts:79-212 | none of the last twelve conditions holds while only basics and compounds are discovered and the streak is below 3 |
| AchievementScenarios.InitialEarly | src/utils/achievementSystem.ts:24-78 | the first six catalogue entries and their conditions |
| AchievementScenarios.InitialLate | src/utils/achievementSystem.ts:79-212 | the last twelve conditions all need more than a first compound |
| AchievementScenarios.FirstCompoundLateNone | src/utils/achievementSystem.ts:79-212 | in such a state none of the last twelve achievements unlocks |
| AchievementScenarios.FirstCompoundEarlyFlips | src/utils/achievementSystem.ts:32-77 | with one discovery, five discovered, all basics and a compound, achievements 1, 2, 5 and 6 flip and 3 and 4 do not |
| AchievementScenarios.NewlyUnlockedSkippingTwo | src/utils/achievementSystem.ts:229-244 | from six achievements of which the third and fourth do not flip, the other four unlock in order |
| AchievementScenarios.FirstCompoundUnlocks | src/utils/achievementSystem.ts:32-77 | the first compound as fifth discovery unlocks `first_discovery`, `five_discoveries`, `all_basic` and `first_compound`, in that order, and `lastUnlocked` becomes `first_compound` |
| AchievementScenarios.FirstFiveElements | src/utils/elementData.ts:25-31 | the first five initial elements are air, water, fire, earth and steam |
| AchievementScenarios.WaterAndFireMakeSteam | src/utils/elementData.ts:77 | water and fire find the steam recipe |
| AchievementScenarios.SteamTableFact | src/utils/elementData.ts:77 | the first recipe is water + fire = steam |
| AchievementScenarios.SteamIsFifth | src/utils/elementData.ts:25-31 | steam is the fifth element |
| AchievementScenarios.FreshWaterFireLookUp | src/utils/gameLogic.ts:146-176 | in a new game, water and fire find steam at index 4 |
| AchievementScenarios.SteamUndiscoveredOnce | src/utils/elementData.ts:23-72 | steam starts undiscovered and is the only element with its id |
| AchievementScenarios.SteamMakesFive | src/utils/elementData.ts:23-72 | marking steam gives five discovered elements |
| AchievementScenarios.InitialFourDiscovered | src/utils/elementData.ts:23-72 | the initial list has four discovered elements |
| AchievementScenarios.SteamOnlyNewDiscovery | src/utils/elementData.ts:23-72 | after marking steam, only the basics and steam are discovered |
| AchievementScenarios.SteamElementsShape | src/utils/elementData.ts:23-72 | after marking steam every basic is discovered, steam is a discovered compound, and only basics and compounds are discovered |
| AchievementScenarios.SteamStateShape | src/utils/achievementSystem.ts:32-77 | a state whose elements are the initial ones with steam marked is a first-compound state |
| AchievementScenarios.SucceededOnNew | src/utils/gameLogic.ts:196-262 | a success on a new result marks it, logs one discovery and grows the streak by one |
| AchievementScenarios.FreshSteamState | src/utils/gameLogic.ts:196-262 | in a new game, finding steam marks it, logs one discovery and makes the streak 1 |
| AchievementScenarios.SteamFoundIsFirstCompound | src/utils/gameLogic.ts:196-297 | in a new game, any combination finding steam leaves a first-compound state for the achievement check |
| AchievementScenarios.FreshWaterFireIsFirstCompound | src/utils/gameLogic.ts:146-297 | in a new game, water + fire succeeds and leaves a first-compound state |
| AchievementScenarios.FreshWaterFireUnlocks | src/utils/achievementSystem.ts:32-77 | a new game's water + fire unlocks the four achievements, ending with `first_compound` as `lastUnlocked` |
| PowerUps.InitializePowerUps | src/utils/powerUpsSystem.ts:23-153 | four unlocked, never used power-ups with positive cost and cooldown, distinct ids and effects, and nothing active |
| PowerUps.IsPowerUpAvailable | src/utils/powerUpsSystem.ts:156-181 | cooldown is checked first, with the remaining seconds rounded up; then cost, with the exact shortfall; available exactly when neither applies |
| PowerUps.Undiscovered | src/utils/powerUpsSystem.ts:53 | exactly the undiscovered elements, in list order; the result is a subsequence of the input and holds every occurrence of each kept value and none of any other |
| PowerUps.Reveal | src/utils/powerUpsSystem.ts:51-96 | nothing undiscovered leaves the state unchanged; otherwise the picked undiscovered element is marked and one revealer record is prepended |
| PowerUps.RevealerDiscoversOne | src/utils/powerUpsSystem.ts:51-96 | with distinct ids a reveal raises the discovered count by exactly one, prepends one record from the power-up, and keeps the ids |
| PowerUps.MarkOneMore | src/utils/powerUpsSystem.ts:69-73 | with distinct ids, marking an undiscovered element discovers exactly one more element and keeps the ids |
| PowerUps.PowerSurgeEffect | src/utils/powerUpsSystem.ts:107-131 | the surge loop computes `Surged` |
| PowerUps.SurgePowers | src/utils/powerUpsSystem.ts:107-131 | each id's power grows by `level * 5` per discovered element with that id |
| PowerUps.DiscoveredIdCount | src/utils/powerUpsSystem.ts:112-118 | an id occurs among the discovered ids as often as discovered elements carry it |
| PowerUps.SurgeDistinct | src/utils/powerUpsSystem.ts:107-131 | with distinct ids each discovered element gains `level * 5`, and the total gains `level * 5` times the discovered count |
| PowerUps.ApplyEffect | src/utils/powerUpsSystem.ts:35-148 | applying an effect computes `EffectResult` |
| PowerUps.EffectResult | src/utils/powerUpsSystem.ts:35-148 | what each effect returns: it changes only the elements, discoveries, multiplier, element powers and total power, and keeps the ids |
| PowerUps.Surged | src/utils/powerUpsSystem.ts:107-131 | the power surge changes only the element powers and the total power; `SurgePowers`, `SurgeDistinct` and `SurgeKeepsTotal` state by how much |
| PowerUps.SurgeKeepsTotal | src/utils/powerUpsSystem.ts:107-131 | with a non-negative level the surge never lowers the total power |
| PowerUps.EffectKeepsTotal | src/utils/powerUpsSystem.ts:35-148 | no effect lowers the total power |
| PowerUps.FindPowerUp | src/utils/powerUpsSystem.ts:190 | the first power-up with the id, or none |
| PowerUps.Stamp | src/utils/powerUpsSystem.ts:225-229 | only entries with the id get `lastUsed = now`; the others are unchanged |
| PowerUps.Activated | src/utils/powerUpsSystem.ts:184-240 | an unknown or unavailable power-up changes nothing; otherwise the new game state is exactly the effect's result with the cost subtracted from its total, the entry is stamped and the id is appended to the active list |
| PowerUps.ActivatePowerUp | src/utils/powerUpsSystem.ts:184-240 | the activation computes `Activated` |
| PowerUps.ActivationKeepsPowerNonNegative | src/utils/powerUpsSystem.ts:173-219 | activation keeps a non-negative total power non-negative |
| PowerUps.ActivationStartsCooldown | src/utils/powerUpsSystem.ts:161-227 | after an activation the power-up is on its full cooldown at the same instant, except at timestamp 0, which counts as never used |
| PowerUps.BoostExceedsCap | src/utils/powerUpsSystem.ts:35-40 | boosting a multiplier at the 3.0 cap gives 6.0 |

## Left out

- Display text: names, symbols, colours, descriptions, icons, and the wording of hints and assistant messages.
  Hints and messages are tags carrying the numbers they print.
- `toast` notifications and `console.error` output.
- `localStorage`: reading, parsing and writing the save, and `saveGame`.
  A save is an abstract `SavedGame`, and only the shape check of `initializeGame` is modelled.
- The null and undefined guards: inputs here are always well-formed records.
- JavaScript floating point: the multiplier is exact tenths.
  Accumulated `+ 0.1` rounding error and ties that float error would round the other way are not modelled.
  Percentages of an empty list are `None` instead of `NaN`.
- JavaScript strings compare by UTF-16 code units; here they compare by Dafny characters.
  The two agree on the game's ids, which are plain ASCII.
- `Date.now()` is the parameter `now`, and `Math.random()` is a pick parameter taken modulo the list length.
  The source reads the clock several times per operation, and the model uses one reading for all of them:
  in `combineElements` the discovery id and its timestamp (src/utils/gameLogic.ts:207, 209);
  in `activatePowerUp` the cooldown test (src/utils/powerUpsSystem.ts:162), the revealed element's record id and timestamp (src/utils/powerUpsSystem.ts:77, 79) and the `lastUsed` stamp (src/utils/powerUpsSystem.ts:227).
  Readings that straddle a millisecond boundary, and so differ by one, are not modelled; `ActivationStartsCooldown` relies on the stamp and the cooldown test seeing the same instant.
- `addElementToCombination` and `removeElementFromCombination` are not defined in `src/utils/gameLogic.ts` and are not part of this model.
- The UI components under `src/components` and `src/pages` are not part of this model.
- PowerUps.IsPowerUpAvailable: like the source, it never reads a power-up's `unlocked` flag.
  The model carries the flag without giving it meaning.
- GameLogic.InitializeGame: the saved progress keeps each achievement's condition, but `saveGame` writes `JSON.stringify(gameProgress)` (src/utils/gameLogic.ts:104), which drops function-valued properties.
  A reloaded game in the source therefore has achievements without a `condition`, and the next successful combination throws when `checkAchievements` calls it (src/utils/achievementSystem.ts:238), after the count table was already incremented.
  That throw is not modelled: here `CombineElements` succeeds on a reloaded game as on a new one.
- GameLogic.CombineElements: the returned `powerGained` field is never set by the source and is not modelled.
- GameLogic.ApplyRewards: the catalogue holds no element reward, so how element rewards apply is proved only in general (keeping ids and flags), not for a concrete reward.
- AchievementScenarios.FreshWaterFireUnlocks: the scenario is proved for the state the achievements are checked against and for the unlocked list; the rewards and the final state are not restated for it (none of the four carries a reward).
- The score, element counts and discovery timestamps are unbounded integers; JavaScript numbers lose precision only far beyond any playable game.
