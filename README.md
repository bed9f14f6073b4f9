# Elden Ring build optimizer engine, in Dafny

This project models the build optimizer of the Elden Ring weapon calculator and the calculator's
weapon search filter, and proves what those pieces promise.

- **Attributes** (`AttributeKeys`): the eight attribute keys in their declared order, and the
  total record from key to integer.
- **Starting classes and levels** (`LevelUtils`): the ten-class table, `getStartingStats` and
  `calculateLevel`. `calculateLevel` maps attributes to the cheapest level that can have them.
- **Greedy allocator** (`Greedy`): `greedyAllocateStrategy`, a one-point-at-a-time hill climber
  under a cap of 99. Ties go to the first key, and it stops when no increment strictly improves
  the score.
- **Build scorer** (`Evaluate`): `calculateBuildScore`. It returns a −1e9 sentinel when an
  ineffective attribute affects the weapon's scaling, and otherwise a weighted sum over damage
  and status types.
- **Orchestrator** (`Optimizer`): `optimizeBuild`. It computes the floors (class base, user
  minimum and weapon requirement), their level, the infeasible-target branch, the budget, the
  strategy call and the result record.
- **Weapon filter** (`WeaponFilter`): `toSpecialUpgradeLevel`, the `filterWeapon` checks and the
  order-preserving `filterWeapons` loop.

The TypeScript loops are Dafny methods with loop invariants. Each method is proved equal to a
specification function, for example:
- `CalculateLevel` equals `Level`;
- `GreedyAllocateStrategy` equals `Allocate`;
- `CalculateBuildScore` equals `BuildScore`;
- `FilterWeapons` equals `Kept`;
- `OptimizeBuild` equals `OptimizedAttributes`.

The lemmas prove the properties of those functions.

The model follows the code in two places where one might expect otherwise:
- it optimizes a single weapon (`src/optimizer/types.ts:11`);
- the requirement penalty is a flat early return of −1e9 (`src/optimizer/evaluate.ts:43`), with
  no 10% multiplier and no per-weapon weighting.

The attack rating engine `getWeaponAttack` and `adjustAttributesForTwoHanding` come from
`src/calculator/calculator`, which is not part of this model. Both are function-valued
parameters: the engine is a field of `Evaluate.Calculator`, and the adjustment is a
`WeaponFilter.TwoHandingAdjustment`. So are the type lists the scorer reads:
- `Object.values(AttackPowerType)`;
- `allDamageTypes`;
- `allStatusTypes`.

The upgrade-level constants are 25 and 10, `MaxRegularUpgradeLevel` and
`MaxSpecialUpgradeLevel`. The general rescaling `SpecialUpgradeLevel` takes both scales as
parameters.

## Model

| member | source | states |
|---|---|---|
| AttributeKeys.PartialGet | src/optimizer/optimizer.ts:40-42 | `m[a] ?? 0` on a partial record: a present key reads its value, an absent key reads 0 |
| AttributeKeys.AllAttributesEnumerates | src/calculator/attributes.ts:1 | there are exactly eight keys, pairwise distinct, and every key is in the list |
| AttributeKeys.IndexOf | src/calculator/attributes.ts:1 | every key sits at exactly one position of the declared order |
| AttributeKeys.Extensionality | src/calculator/attributes.ts:4 | the record is total over the eight keys: two records that agree on every key are equal |
| AttributeKeys.Attributes.With | src/optimizer/optimizer.ts:46 | assigning one key sets it to the value, leaves every other key unchanged, and changes the sum by the difference |
| AttributeKeys.Attributes.Inc | src/optimizer/strategies/greedy.ts:34-37 | the spread copy with one key plus one raises that key by one, leaves every other key unchanged, and raises the sum by one |
| LevelUtils.StartingClassStats | src/optimizer/utils.ts:17-28 | the ten table entries, base level and the eight base values in key order, with the values of the source; the level rule of the entries is stated by `GetStartingStats` |
| LevelUtils.GetStartingStats | src/optimizer/utils.ts:68-70 | returns the table entry of the class; every entry of the table (lines 17-28) has level = sum of its attributes − 79, between 1 and 10 |
| LevelUtils.MinWith | src/optimizer/utils.ts:56 | `Math.min` with `Infinity` as `None`: at most the new value and the old minimum, and equal to one of them |
| LevelUtils.MinLevelUpTo | src/optimizer/utils.ts:40-58 | after n classes `minLevel` is `Infinity` exactly when none of them qualifies; otherwise it is the cost of a qualifying class and at most the cost of every qualifying class |
| LevelUtils.Level | src/optimizer/utils.ts:37-61 | 1 when no class qualifies; otherwise at most the cost of every qualifying class, and equal to each of them, which is sum − 79 |
| LevelUtils.Qualifies | src/optimizer/utils.ts:46-55 | `possibleClass` of a class: no key is below that class's base value; computed by `ClassPointsSpent` |
| LevelUtils.Cost | src/optimizer/utils.ts:55-57 | `baseInfo.level + pointsSpent`: the class's base level plus the points above its base; used by `MinLevelUpTo` and `Level` |
| LevelUtils.SpentUpTo | src/optimizer/utils.ts:44-53 | `pointsSpent` after the inner loop has looked at the first n keys; its total is `SpentTotal` |
| LevelUtils.SpentTotal | src/optimizer/utils.ts:46-53 | the points accumulated over all eight keys are the difference of the sums |
| LevelUtils.ClassPointsSpent | src/optimizer/utils.ts:46-53 | `possibleClass` holds exactly when no key is below the class base (one lower key disqualifies), and then `pointsSpent` is the points above the base |
| LevelUtils.CalculateLevel | src/optimizer/utils.ts:37-63 | returns `Level(x)`: the least qualifying cost, or 1 when no class qualifies |
| LevelUtils.LevelRoundTrip | src/optimizer/utils.ts:37-61 | a class's own base attributes map back to that class's base level |
| LevelUtils.PointCostsOneLevel | src/optimizer/utils.ts:33-35 | once some class qualifies, one more point in any key is exactly one more level |
| LevelUtils.LevelAboveClassBase | src/optimizer/utils.ts:37-61 | attributes that dominate a class's base have that base level plus the points above the base |
| Greedy.Scan | src/optimizer/strategies/greedy.ts:18-48 | the state of the inner `for` after the first n keys: skip keys at or above 99, replace the choice only on a strictly greater score; characterised by `ScanFindsFirstBest` |
| Greedy.Step | src/optimizer/strategies/greedy.ts:18-48 | one pass of the inner `for` over all eight keys with the current score as baseline; characterised by `StepChoice` |
| Greedy.Allocate | src/optimizer/strategies/greedy.ts:11-71 | the `while` loop: stop when the budget is spent or no key was chosen, otherwise raise the chosen key and continue with one point less; its properties are `AllocateBounds`, `AllocateImproves`, `AllocateStopsAtLocalOptimum` and `AcceptedStep` |
| Greedy.ScanFindsFirstBest | src/optimizer/strategies/greedy.ts:23-46 | the inner scan picks nothing when no key below the cap beats the baseline; otherwise it picks a key below the cap whose score beats the baseline and is the maximum, and every earlier key scores strictly less (ties go to the first key) |
| Greedy.StepChoice | src/optimizer/strategies/greedy.ts:18-48 | one step either picks a key below the cap whose increment strictly improves the score, or no increment of a key below the cap improves it |
| Greedy.ChooseIncrement | src/optimizer/strategies/greedy.ts:18-48 | the inner `for` loop computes the scan's choice, `foundImprovement` holds exactly when a key was chosen, the chosen key's score is `maxScoreIncrease`, and it makes at most 8 evaluations |
| Greedy.GreedyAllocateStrategy | src/optimizer/strategies/greedy.ts:5-72 | returns `Allocate` of the inputs, which does not depend on `minimumAttributes`; it makes at most 1 + 8 · budget score evaluations |
| Greedy.AllocateBounds | src/optimizer/strategies/greedy.ts:17-63 | the result dominates the input, keys at or above 99 are untouched, keys at most 99 stay at most 99, and 0 ≤ points added ≤ max(0, budget) |
| Greedy.AllocateImproves | src/optimizer/strategies/greedy.ts:42-62 | the score never drops, and it strictly rises whenever a point was spent |
| Greedy.AllocateStopsAtLocalOptimum | src/optimizer/strategies/greedy.ts:42-54 | when fewer points than the budget were spent, no +1 on a key below 99 improves the final score |
| Greedy.AllocateWithinCap | src/optimizer/strategies/greedy.ts:26-31 | inputs within 99 give outputs within 99 |
| Greedy.NoBudgetNoChange | src/optimizer/strategies/greedy.ts:12-17 | a budget ≤ 0 returns the input unchanged |
| Greedy.AcceptedStep | src/optimizer/strategies/greedy.ts:42-62 | when a key below the cap strictly improves the score, has the maximal score and beats every earlier key, the strategy raises exactly that key by one and continues with one point less |
| Evaluate.ValueOr0 | src/optimizer/evaluate.ts:56-68 | `m[type] ?? 0` on a weight or engine map: a present type reads its value, an absent type reads 0; `AbsentCountsAsZero` states it for the whole score |
| Evaluate.Calculator.RelevantTypes | src/optimizer/evaluate.ts:48-52 | `relevantTypes`: the damage types followed by the status types; `WeightedScoreAppend` splits the score over the two lists |
| Evaluate.ScalesWith | src/optimizer/evaluate.ts:34-36 | `weapon.attackElementCorrect[type]?.[attr]` is truthy: the type has an entry, the entry has the attribute, and the value is true |
| Evaluate.AffectsScaling | src/optimizer/evaluate.ts:34-36 | `affectsScaling`: some listed attack power type scales with the attribute; used by `PenaltyScore` |
| Evaluate.PenaltyApplies | src/optimizer/evaluate.ts:29-41 | some ineffective attribute has a truthy `attackElementCorrect` entry for some attack power type; used by `PenaltyScore` and `HarmlessIneffectiveAttributes` |
| Evaluate.TypeScore | src/optimizer/evaluate.ts:55-69 | what one type adds: attack power times the attack weight, attack power times the status weight, spell scaling times the scaling weight, each only for a positive weight and with `?? 0` |
| Evaluate.WeightedScore | src/optimizer/evaluate.ts:55-70 | `score` after the loop over a list of types, starting from 0; its properties are `WeightedScoreNonNegative`, `NonPositiveWeightsIgnored`, `AbsentCountsAsZero` and `WeightedScoreAppend` |
| Evaluate.BuildScore | src/optimizer/evaluate.ts:25-75 | −1e9 when the penalty applies to the engine's answer with two-handing off, the weighted sum over damage and status types otherwise |
| Evaluate.Weighted | src/optimizer/evaluate.ts:60-69 | a non-positive weight adds nothing, and a non-negative value with any weight adds a non-negative amount |
| Evaluate.CalculateBuildScore | src/optimizer/evaluate.ts:11-76 | the penalty loop with its early return, then the scoring loop, compute `BuildScore`: −1e9 when some ineffective attribute affects the weapon's scaling, the weighted sum over damage and status types otherwise |
| Evaluate.AccumulateScore | src/optimizer/evaluate.ts:55-70 | the `score +=` loop over the relevant types yields the weighted sum over them |
| Evaluate.PenaltyScore | src/optimizer/evaluate.ts:29-45 | one ineffective attribute that an attack power type of the weapon scales with makes the score exactly −1e9 |
| Evaluate.HarmlessIneffectiveAttributes | src/optimizer/evaluate.ts:33-41 | ineffective attributes that no attack power type scales with cause no penalty: the score is the weighted sum |
| Evaluate.WeightedScoreNonNegative | src/optimizer/evaluate.ts:55-70 | with non-negative engine values the weighted sum is non-negative |
| Evaluate.PenaltyRanksBelow | src/optimizer/evaluate.ts:25-70 | a build without the penalty and with non-negative engine values scores ≥ 0, above the −1e9 of every penalised build |
| Evaluate.NonPositiveWeightsIgnored | src/optimizer/evaluate.ts:60-68 | dropping every non-positive weight leaves the score unchanged |
| Evaluate.AbsentCountsAsZero | src/optimizer/evaluate.ts:56-68 | missing weights and missing attack or scaling values count as 0: writing an explicit 0 changes nothing |
| Evaluate.WeightedScoreAppend | src/optimizer/evaluate.ts:48-70 | the score over damage types followed by status types is the sum of the scores over each list |
| WeaponFilter.SpecialUpgradeLevel | src/search/filterWeapons.ts:46-54 | the result is floor((r + 0.5) · S / R), stated as s · 2R ≤ (2r + 1) · S < (s + 1) · 2R |
| WeaponFilter.ToSpecialUpgradeLevel | src/search/filterWeapons.ts:46-54 | the same floor for R = 25, S = 10 |
| WeaponFilter.ToSpecialUpgradeLevelExamples | src/search/filterWeapons.ts:46-54 | +24 gives +9, +25 gives +10, and +0 gives +0 |
| WeaponFilter.SpecialUpgradeLevelMonotone | src/search/filterWeapons.ts:46-54 | a higher regular level never gives a lower special level |
| WeaponFilter.SpecialUpgradeLevelRange | src/search/filterWeapons.ts:46-54 | when S ≤ R, the levels 0..R map into 0..S |
| WeaponFilter.ToSpecialUpgradeLevelBounds | src/search/filterWeapons.ts:46-54 | +0..+25 map monotonically into +0..+10 |
| WeaponFilter.AffinityAdmits | src/search/filterWeapons.ts:103-107 | the `affinities.some` test: the affinity is the weapon's, or it is "Standard" and the weapon's type is uninfusable; stated by `FilterWeaponAccepts` |
| WeaponFilter.MissesRequirement | src/search/filterWeapons.ts:124-127 | some requirement of the weapon is above the adjusted attribute value; `FilterWeaponAccepts` states its negation per key |
| WeaponFilter.FilterWeapon | src/search/filterWeapons.ts:81-134 | the early-return chain of `filterWeapon`, check by check in source order; stated as an if-and-only-if by `FilterWeaponAccepts` |
| WeaponFilter.FilterWeaponAccepts | src/search/filterWeapons.ts:81-134 | `filterWeapon` accepts exactly when all checks pass: regular weapons at the requested level, special weapons at its special equivalent, the type list (empty means any), the affinity list (empty means any; "Standard" also admits the uninfusable types of lines 57-66), the weight limit, and, when attributes are given, every requirement met by the two-hand-adjusted attributes |
| WeaponFilter.AxeSearchExample | src/search/filterWeapons.ts:81-134 | a search for +25 Standard axes up to weight 20 keeps only Standard axes of weight ≤ 20, at +25 when regular and at +10 when special |
| WeaponFilter.Kept | src/search/filterWeapons.ts:136-142 | `filteredWeapons` after the loop has looked at a prefix of the weapons; its properties are `KeptMembers`, `KeptCounts` and `KeptAppend` |
| WeaponFilter.FilterWeapons | src/search/filterWeapons.ts:136-142 | the loop returns the weapons `filterWeapon` accepts, pushed in input order |
| WeaponFilter.KeptMembers | src/search/filterWeapons.ts:136-142 | a weapon is in the output exactly when it is in the input and accepted |
| WeaponFilter.KeptCounts | src/search/filterWeapons.ts:136-142 | an accepted weapon occurs in the output as often as in the input (duplicates kept), a rejected one never |
| WeaponFilter.KeptAppend | src/search/filterWeapons.ts:136-142 | order is kept: filtering a + b gives the kept weapons of a, then those of b |
| Optimizer.RequiredStat | src/optimizer/optimizer.ts:45 | the required stat is at least the class value, the minimum and the requirement |
| Optimizer.RequiredStatIsOneOf | src/optimizer/optimizer.ts:45 | it is one of those three, so it is their maximum |
| Optimizer.FloorAttributes | src/optimizer/optimizer.ts:37-46 | every key at `Math.max` of the class value, the minimum `?? 0` and the requirement `?? 0`; stated per key by `FloorAttributesGet` |
| Optimizer.Floors | src/optimizer/optimizer.ts:34-46 | `actualStartingAttributes` of an input: the floors of its class base, minimums and weapon requirements |
| Optimizer.FloorAttributesGet | src/optimizer/optimizer.ts:37-46 | each key of the floors is the maximum of the class value, the minimum (`?? 0`) and the requirement (`?? 0`) |
| Optimizer.FloorAttributesBounds | src/optimizer/optimizer.ts:37-46 | the floors dominate the class base, every minimum and every requirement |
| Optimizer.RaisedUpTo | src/optimizer/optimizer.ts:48-51 | the levels added by the `forEach` are never negative |
| Optimizer.RaisedIsSpent | src/optimizer/optimizer.ts:48-51 | for floors that dominate the base, the level added by each key is the points `calculateLevel` counts as spent on it |
| Optimizer.RaisedTotal | src/optimizer/optimizer.ts:35-51 | over all eight keys, the levels added are the points between the base and the floors |
| Optimizer.LevelAfterMinimums | src/optimizer/optimizer.ts:35-51 | the class level plus every positive raise of a key to its floor; stated by `LevelAfterMinimumsIsLevel` |
| Optimizer.ApplyMinimums | src/optimizer/optimizer.ts:34-52 | the `forEach` turns the copy into the floors and raises the level by the sum of the positive raises, which is the points between base and floors |
| Optimizer.LevelAfterMinimumsIsLevel | src/optimizer/optimizer.ts:35-51 | `levelAfterMinimums` is the class level plus the points above the base, at least the class level, and equal to `calculateLevel` of the floors |
| Optimizer.Evaluator | src/optimizer/optimizer.ts:87-93 | the `evaluate` closure: the build score of the given attributes for the input's weapon, upgrade level and weights; `OptimizeBuild` states `finalScore` through it |
| Optimizer.RunStrategy | src/optimizer/optimizer.ts:97-102 | the strategy call: the greedy allocation for the default strategy (line 14), the given function otherwise |
| Optimizer.Outcome | src/optimizer/optimizer.ts:57-102 | the floors for a target below their level, the strategy's answer for target − level otherwise |
| Optimizer.OptimizedAttributes | src/optimizer/optimizer.ts:37-102 | `optimizedAttributes` of an input: the outcome for its floors, their level and its target; stated by `InfeasibleTargetReturnsFloors` and `FeasibleTargetRunsStrategy` |
| Optimizer.OutcomeFeasible | src/optimizer/optimizer.ts:82-102 | for a target at or above the floors' level the outcome is the strategy's answer |
| Optimizer.GreedyIgnoresMinimums | src/optimizer/strategies/greedy.ts:8 | the greedy strategy's answer is the same for any `minimumAttributes` |
| Optimizer.ApplyStrategy | src/optimizer/optimizer.ts:97-102 | the strategy call on the floors and the budget yields the optimized attributes |
| Optimizer.OptimizeBuild | src/optimizer/optimizer.ts:11-122 | the optimized attributes are the floors for a target below their level and otherwise the strategy's answer; `finalScore` is the build score of the optimized attributes; `attackResult` is the engine's answer for them with two-handing off; the starting attributes and level are the class base, not the floors |
| Optimizer.InfeasibleTargetReturnsFloors | src/optimizer/optimizer.ts:57-80 | a target below the floors' level returns exactly the floors, whatever the strategy |
| Optimizer.FeasibleTargetRunsStrategy | src/optimizer/optimizer.ts:82-102 | any other target calls the strategy on the floors, the minimums and a budget of target − `levelAfterMinimums`, which is ≥ 0 |
| Optimizer.GreedyFeasibleOutcome | src/optimizer/optimizer.ts:82-102 | with the greedy strategy and a feasible target, the result dominates the floors, keeps within 99 the keys whose floor is within 99, spends between 0 and the budget, and scores at least as well as the floors |
| Optimizer.GreedyOutcome | src/optimizer/optimizer.ts:57-102 | with the greedy strategy, for any target, the result dominates the floors, keeps within the cap, and spends at most max(0, target − `levelAfterMinimums`) |
| Optimizer.GreedyMeetsMinimums | src/optimizer/optimizer.ts:37-102 | with the greedy strategy, the result meets every user minimum and every weapon requirement |
| Optimizer.GreedyLevelBound | src/optimizer/optimizer.ts:57-102 | with the greedy strategy, the level of the result lies between `levelAfterMinimums` and max(target, `levelAfterMinimums`) |
| Optimizer.GreedyNoWorseThanFloors | src/optimizer/optimizer.ts:97-105 | with the greedy strategy and a feasible target, the final score is at least the floors' score |

## Left out

- The attack rating engine `getWeaponAttack` and `adjustAttributesForTwoHanding`: they live in `src/calculator/calculator`, which is not part of this model. Both are deterministic function parameters.
- The lists `Object.values(AttackPowerType)`, `allDamageTypes` and `allStatusTypes`: they are parameters of `Evaluate.Calculator`, because `AttackPowerType` and the lists are defined in the calculator, which is not part of this model. `Object.values` of a numeric enum also yields the member names, and the penalty loop indexes `attackElementCorrect` with every value. The model assumes `attackElementCorrect` is keyed by the numeric ids only, so the names read `undefined` and a caller passes the numeric ids.
- `Weapons.Weapon.attackElementCorrect`: `Weapon` in `src/calculator/weapon.ts:3-38` does not declare this field, although the scorer reads it. Its shape is assumed: a map from type id to a map from attribute to `bool`, with the truthy value of the source reduced to `bool`.
- Attributes, levels, budgets and upgrade levels are JavaScript `number`s in the source and `int`s here: the model assumes they are integers. The engine does not enforce this: a fractional minimum or target gives a fractional budget, for which the loop `while (pointsLeft > 0)` spends ⌈budget⌉ points. For such inputs the bounds of `AllocateBounds` and `GreedyLevelBound` are not claimed. `toSpecialUpgradeLevel` computes with `+ 0.5` and `10 / 25`; the model computes that floor exactly for an integer level.
- Weapon fields that only the engine reads (base attack, scaling, curves): they are left out of `Weapons.Weapon`.
- `Weapons.WeaponType` and `Weapons.Affinity` are strings: the model assumes a weapon's type values are the names listed at `src/search/filterWeapons.ts:57-66`, so the uninfusable exception of `AffinityAdmits` applies to those eight names. `src/calculator/weaponTypes.ts` declares `WeaponType` as numeric ids (for example `AXE: 17`). If `weapon.metadata.weaponType` holds those ids, `uninfusableWeaponTypes.includes(...)` never matches and the exception never applies; the model does not capture that case.
- Floating-point arithmetic: scores are exact `real`s. `toSpecialUpgradeLevel` is the exact integer floor, not the IEEE computation; the two could differ only through rounding of `(r + 0.5) * 0.4`.
- `console.log` and `console.warn` tracing in `optimizeBuild` and in the greedy strategy: it has no effect on results.
- The React UI, the application state, the local-storage and URL persistence, and the regulation-version table: they are not part of the engine.
- The inner loops live in separate methods: `ChooseIncrement`, `ClassPointsSpent`, the scoring loop `AccumulateScore`, and `ApplyStrategy` (the strategy call). Each is the exact loop or statement of the source, moved into its own method.
- Greedy.AllocateBounds: it states that the points added are at most the budget. The source's local count "points added = `pointsToAllocate − pointsLeft`" is not stated in a contract, because `pointsLeft` is internal to the loop.
- Greedy.GreedyAllocateStrategy: the evaluation bound is counted by a ghost out-parameter, so the bound is a proof fact and not a runtime value.
- Multi-weapon aggregation, per-weapon weights and a 10% ineffective-type multiplier: none of these exist in the code, which optimizes one weapon and applies a flat −1e9.
