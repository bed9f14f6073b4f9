/**
 The orchestrator `optimizeBuild` (src/optimizer/optimizer.ts). From the starting class it
 raises every attribute to the highest of the class base, the user's minimum and the weapon's
 requirement; these floors cost a level. A target below that level returns the floors as they
 are; any other target hands the floors and the remaining levels to the allocation strategy.
 */
module Optimizer {
  import opened AttributeKeys
  import opened LevelUtils
  import opened Weapons
  import opened Evaluate
  import opened Greedy

  /** `OptimizerInput`. */
  datatype OptimizerInput = OptimizerInput(
    startingClass: StartingClass,
    targetLevel: int,
    weapon: Weapon,
    upgradeLevel: int,
    objectiveWeights: ObjectiveWeights,
    minimumAttributes: PartialAttributes)

  /** `OptimizerResult`. */
  datatype OptimizerResult = OptimizerResult(
    optimizedAttributes: Attributes,
    finalScore: real,
    attackResult: AttackResult,
    startingAttributes: Attributes,
    startingLevel: int)

  /** `OptimizerStrategy`: initial attributes, points to allocate, minimums, score function. */
  type StrategyFunction = (Attributes, int, PartialAttributes, Attributes -> real) -> Attributes

  /** The `strategy` argument: its default, the greedy allocator, or any other strategy. */
  datatype Strategy = GreedyAllocate | Custom(run: StrategyFunction)

  /** `Math.max(classStat, minimumStat, weaponRequirement)`. */
  function RequiredStat(classStat: int, minimumStat: int, weaponRequirement: int): (r: int)
    ensures r >= classStat && r >= minimumStat && r >= weaponRequirement
  {
    var m := if classStat >= minimumStat then classStat else minimumStat;
    if m >= weaponRequirement then m else weaponRequirement
  }

  /** The required stat is one of the three values, so it is the least value at least each of them. */
  lemma RequiredStatIsOneOf(classStat: int, minimumStat: int, weaponRequirement: int)
    ensures var r := RequiredStat(classStat, minimumStat, weaponRequirement);
      r == classStat || r == minimumStat || r == weaponRequirement
  {
  }

  /**
   The floor attributes: every key at the highest of the class value, the minimum and the
   requirement, with absent minimums and requirements counting as 0.
   */
  function FloorAttributes(base: Attributes, minimum: PartialAttributes, requirements: PartialAttributes): Attributes {
    Attributes(
      RequiredStat(base.vigor, PartialGet(minimum, Vig), PartialGet(requirements, Vig)),
      RequiredStat(base.mind, PartialGet(minimum, Min), PartialGet(requirements, Min)),
      RequiredStat(base.endurance, PartialGet(minimum, End), PartialGet(requirements, End)),
      RequiredStat(base.strength, PartialGet(minimum, Str), PartialGet(requirements, Str)),
      RequiredStat(base.dexterity, PartialGet(minimum, Dex), PartialGet(requirements, Dex)),
      RequiredStat(base.intelligence, PartialGet(minimum, Int), PartialGet(requirements, Int)),
      RequiredStat(base.faith, PartialGet(minimum, Fai), PartialGet(requirements, Fai)),
      RequiredStat(base.arcane, PartialGet(minimum, Arc), PartialGet(requirements, Arc)))
  }

  /** Each key of the floors is the required stat of that key. */
  lemma FloorAttributesGet(base: Attributes, minimum: PartialAttributes, requirements: PartialAttributes, a: Attribute)
    ensures FloorAttributes(base, minimum, requirements).Get(a) == RequiredStat(base.Get(a), PartialGet(minimum, a), PartialGet(requirements, a))
  {
  }

  /** The floors are at least each of the class value, the minimum and the requirement. */
  lemma FloorAttributesBounds(base: Attributes, minimum: PartialAttributes, requirements: PartialAttributes)
    ensures var f := FloorAttributes(base, minimum, requirements);
      && f.AtLeast(base)
      && (forall a :: f.Get(a) >= PartialGet(minimum, a))
      && (forall a :: f.Get(a) >= PartialGet(requirements, a))
  {
    var f := FloorAttributes(base, minimum, requirements);
    forall a
      ensures f.Get(a) >= base.Get(a) && f.Get(a) >= PartialGet(minimum, a) && f.Get(a) >= PartialGet(requirements, a)
    {
      FloorAttributesGet(base, minimum, requirements, a);
    }
  }

  /** `actualStartingAttributes` of an input. */
  function Floors(input: OptimizerInput): Attributes {
    FloorAttributes(GetStartingStats(input.startingClass).attributes, input.minimumAttributes, input.weapon.requirements)
  }

  /** Levels added by the `forEach` after the first `n` keys: each raised key adds what it was raised by. */
  function RaisedUpTo(base: Attributes, floors: Attributes, n: nat): (r: int)
    requires n <= |AllAttributes|
    ensures r >= 0
  {
    if n == 0 then 0
    else
      var a := AllAttributes[n - 1];
      RaisedUpTo(base, floors, n - 1) + (if floors.Get(a) > base.Get(a) then floors.Get(a) - base.Get(a) else 0)
  }

  /** For floors that dominate the base, every key adds exactly what `calculateLevel` counts as spent on it. */
  lemma {:induction false} RaisedIsSpent(base: Attributes, floors: Attributes, n: nat)
    requires n <= |AllAttributes|
    requires floors.AtLeast(base)
    ensures RaisedUpTo(base, floors, n) == SpentUpTo(floors, base, n)
  {
    if n > 0 {
      RaisedIsSpent(base, floors, n - 1);
    }
  }

  /** Over all keys of floors that dominate the base, the levels added are the points between the two. */
  lemma RaisedTotal(base: Attributes, floors: Attributes)
    requires floors.AtLeast(base)
    ensures RaisedUpTo(base, floors, |AllAttributes|) == floors.Sum() - base.Sum()
  {
    RaisedIsSpent(base, floors, |AllAttributes|);
    SpentTotal(floors, base);
  }

  /**
   `levelAfterMinimums`: the class level plus, for every key, how far the floor is above the
   class value.
   */
  function LevelAfterMinimums(input: OptimizerInput): int {
    var stats := GetStartingStats(input.startingClass);
    stats.level + RaisedUpTo(stats.attributes, Floors(input), |AllAttributes|)
  }

  /**
   Since the floors dominate the class base, the level after the minimums is the class level
   plus the points between the base and the floors, and it is exactly the level
   `calculateLevel` gives the floors.
   */
  lemma LevelAfterMinimumsIsLevel(input: OptimizerInput)
    ensures LevelAfterMinimums(input) == GetStartingStats(input.startingClass).level
      + (Floors(input).Sum() - GetStartingStats(input.startingClass).attributes.Sum())
    ensures LevelAfterMinimums(input) >= GetStartingStats(input.startingClass).level
    ensures LevelAfterMinimums(input) == Level(Floors(input))
  {
    var stats := GetStartingStats(input.startingClass);
    FloorAttributesBounds(stats.attributes, input.minimumAttributes, input.weapon.requirements);
    RaisedTotal(stats.attributes, Floors(input));
    LevelAboveClassBase(Floors(input), input.startingClass);
  }

  /**
   The `allAttributes.forEach` of `optimizeBuild`: raise each key of a copy of the class
   attributes to its floor, and add to the level whatever a key was raised by.
   */
  method ApplyMinimums(initialAttributes: Attributes, initialLevel: int, minimum: PartialAttributes, requirements: PartialAttributes)
    returns (actualStartingAttributes: Attributes, levelAfterMinimums: int)
    ensures actualStartingAttributes == FloorAttributes(initialAttributes, minimum, requirements)
    ensures levelAfterMinimums == initialLevel + RaisedUpTo(initialAttributes, actualStartingAttributes, |AllAttributes|)
    ensures levelAfterMinimums == initialLevel + (actualStartingAttributes.Sum() - initialAttributes.Sum())
  {
    ghost var floors := FloorAttributes(initialAttributes, minimum, requirements);
    AllAttributesEnumerates();
    actualStartingAttributes := initialAttributes;
    levelAfterMinimums := initialLevel;
    for i := 0 to |AllAttributes|
      invariant forall j :: 0 <= j < i ==> actualStartingAttributes.Get(AllAttributes[j]) == floors.Get(AllAttributes[j])
      invariant forall j :: i <= j < |AllAttributes| ==> actualStartingAttributes.Get(AllAttributes[j]) == initialAttributes.Get(AllAttributes[j])
      invariant levelAfterMinimums == initialLevel + RaisedUpTo(initialAttributes, floors, i)
    {
      var attr := AllAttributes[i];
      var classStat := initialAttributes.Get(attr);
      var minimumStat := PartialGet(minimum, attr);
      var weaponRequirement := PartialGet(requirements, attr);
      var requiredStat := RequiredStat(classStat, minimumStat, weaponRequirement);
      FloorAttributesGet(initialAttributes, minimum, requirements, attr);
      actualStartingAttributes := actualStartingAttributes.With(attr, requiredStat);
      if requiredStat > classStat {
        levelAfterMinimums := levelAfterMinimums + (requiredStat - classStat);
      }
    }
    forall a ensures actualStartingAttributes.Get(a) == floors.Get(a) {
      var j := IndexOf(a);
    }
    Extensionality(actualStartingAttributes, floors);
    FloorAttributesBounds(initialAttributes, minimum, requirements);
    RaisedTotal(initialAttributes, floors);
  }

  /** The `evaluate` closure: the build score of the input's weapon, upgrade level and weights. */
  function Evaluator(input: OptimizerInput, engine: Calculator): Attributes -> real {
    (attributes: Attributes) => BuildScore(attributes, input.weapon, input.upgradeLevel, input.objectiveWeights, engine)
  }

  /** What a strategy returns for the given starting attributes, budget, minimums and score. */
  function RunStrategy(strategy: Strategy, initial: Attributes, points: int, minimum: PartialAttributes, evaluate: Attributes -> real): Attributes {
    match strategy
    case GreedyAllocate => Allocate(initial, points, evaluate)
    case Custom(run) => run(initial, points, minimum, evaluate)
  }

  /** The floors for a target below their level, the strategy's answer for the points up to the target otherwise. */
  function Outcome(floors: Attributes, levelAfterMinimums: int, targetLevel: int, strategy: Strategy,
                   minimum: PartialAttributes, evaluate: Attributes -> real): Attributes {
    if targetLevel < levelAfterMinimums then floors
    else RunStrategy(strategy, floors, targetLevel - levelAfterMinimums, minimum, evaluate)
  }

  /** For a reachable target, the outcome is the strategy's answer for the points up to it. */
  lemma OutcomeFeasible(floors: Attributes, levelAfterMinimums: int, targetLevel: int, strategy: Strategy,
                        minimum: PartialAttributes, evaluate: Attributes -> real)
    requires targetLevel >= levelAfterMinimums
    ensures Outcome(floors, levelAfterMinimums, targetLevel, strategy, minimum, evaluate)
      == RunStrategy(strategy, floors, targetLevel - levelAfterMinimums, minimum, evaluate)
  {
  }

  /** The greedy strategy takes the minimums but its answer does not depend on them. */
  lemma GreedyIgnoresMinimums(initial: Attributes, points: int, minimum1: PartialAttributes, minimum2: PartialAttributes,
                              evaluate: Attributes -> real)
    ensures RunStrategy(GreedyAllocate, initial, points, minimum1, evaluate) == RunStrategy(GreedyAllocate, initial, points, minimum2, evaluate)
  {
  }

  /** `optimizedAttributes` of `optimizeBuild`. */
  function OptimizedAttributes(input: OptimizerInput, strategy: Strategy, evaluate: Attributes -> real): Attributes {
    Outcome(Floors(input), LevelAfterMinimums(input), input.targetLevel, strategy, input.minimumAttributes, evaluate)
  }

  /**
   The strategy call of `optimizeBuild` for a target at or above the floors' level:
   `strategy(actualStartingAttributes, pointsToAllocate, minimumAttributes, evaluate)`.
   */
  method ApplyStrategy(input: OptimizerInput, strategy: Strategy, evaluate: Attributes -> real, actualStartingAttributes: Attributes, pointsToAllocate: int)
    returns (optimizedAttributes: Attributes)
    requires actualStartingAttributes == Floors(input)
    requires input.targetLevel >= LevelAfterMinimums(input) && pointsToAllocate == input.targetLevel - LevelAfterMinimums(input)
    ensures optimizedAttributes == OptimizedAttributes(input, strategy, evaluate)
  {
    FeasibleTargetRunsStrategy(input, strategy, evaluate);
    match strategy
    case GreedyAllocate =>
      ghost var evaluations: nat;
      optimizedAttributes, evaluations := GreedyAllocateStrategy(actualStartingAttributes, pointsToAllocate, input.minimumAttributes, evaluate);
    case Custom(run) =>
      optimizedAttributes := run(actualStartingAttributes, pointsToAllocate, input.minimumAttributes, evaluate);
  }

  /**
   `optimizeBuild`. The result carries the optimized attributes, their build score, the
   engine's answer for them with one-handed grip, and the class's own base values.
   */
  method OptimizeBuild(input: OptimizerInput, strategy: Strategy, engine: Calculator) returns (result: OptimizerResult)
    ensures result.optimizedAttributes == OptimizedAttributes(input, strategy, Evaluator(input, engine))
    ensures result.finalScore == BuildScore(result.optimizedAttributes, input.weapon, input.upgradeLevel, input.objectiveWeights, engine)
    ensures result.attackResult == engine.getWeaponAttack(input.weapon, result.optimizedAttributes, input.upgradeLevel, false)
    ensures result.startingAttributes == GetStartingStats(input.startingClass).attributes
    ensures result.startingLevel == GetStartingStats(input.startingClass).level
  {
    var classStats := GetStartingStats(input.startingClass);
    var initialLevel := classStats.level;
    var initialAttributes := classStats.attributes;
    var selectedWeaponDetails := input.weapon;
    var actualStartingAttributes, levelAfterMinimums :=
      ApplyMinimums(initialAttributes, initialLevel, input.minimumAttributes, selectedWeaponDetails.requirements);
    assert actualStartingAttributes == Floors(input);
    assert levelAfterMinimums == LevelAfterMinimums(input);
    if input.targetLevel < levelAfterMinimums {
      InfeasibleTargetReturnsFloors(input, strategy, Evaluator(input, engine));
      var score := CalculateBuildScore(actualStartingAttributes, selectedWeaponDetails, input.upgradeLevel, input.objectiveWeights, engine);
      var attackResult := engine.getWeaponAttack(selectedWeaponDetails, actualStartingAttributes, input.upgradeLevel, false);
      return OptimizerResult(actualStartingAttributes, score, attackResult, initialAttributes, initialLevel);
    }
    var pointsToAllocate := input.targetLevel - levelAfterMinimums;
    var evaluate := Evaluator(input, engine);
    var optimizedAttributes := ApplyStrategy(input, strategy, evaluate, actualStartingAttributes, pointsToAllocate);
    var finalScore := CalculateBuildScore(optimizedAttributes, selectedWeaponDetails, input.upgradeLevel, input.objectiveWeights, engine);
    var attackResult := engine.getWeaponAttack(selectedWeaponDetails, optimizedAttributes, input.upgradeLevel, false);
    result := OptimizerResult(optimizedAttributes, finalScore, attackResult, initialAttributes, initialLevel);
  }

  /** A target below the floors' level returns the floors, whatever the strategy. */
  lemma InfeasibleTargetReturnsFloors(input: OptimizerInput, strategy: Strategy, evaluate: Attributes -> real)
    requires input.targetLevel < LevelAfterMinimums(input)
    ensures OptimizedAttributes(input, strategy, evaluate) == Floors(input)
  {
  }

  /**
   Any other target calls the strategy once, on the floors, with the minimums, the build
   score, and a non-negative budget: the target minus the floors' level.
   */
  lemma FeasibleTargetRunsStrategy(input: OptimizerInput, strategy: Strategy, evaluate: Attributes -> real)
    requires input.targetLevel >= LevelAfterMinimums(input)
    ensures input.targetLevel - LevelAfterMinimums(input) >= 0
    ensures OptimizedAttributes(input, strategy, evaluate)
      == RunStrategy(strategy, Floors(input), input.targetLevel - LevelAfterMinimums(input), input.minimumAttributes, evaluate)
  {
    OutcomeFeasible(Floors(input), LevelAfterMinimums(input), input.targetLevel, strategy, input.minimumAttributes, evaluate);
  }

  /** The greedy allocation from the floors, for a feasible target. */
  lemma GreedyFeasibleOutcome(input: OptimizerInput, evaluate: Attributes -> real)
    requires input.targetLevel >= LevelAfterMinimums(input)
    ensures var r := OptimizedAttributes(input, GreedyAllocate, evaluate);
      && r.AtLeast(Floors(input))
      && (forall a :: Floors(input).Get(a) <= Cap ==> r.Get(a) <= Cap)
      && 0 <= r.Sum() - Floors(input).Sum() <= input.targetLevel - LevelAfterMinimums(input)
      && evaluate(r) >= evaluate(Floors(input))
  {
    FeasibleTargetRunsStrategy(input, GreedyAllocate, evaluate);
    AllocateBounds(Floors(input), input.targetLevel - LevelAfterMinimums(input), evaluate);
    AllocateImproves(Floors(input), input.targetLevel - LevelAfterMinimums(input), evaluate);
  }

  /**
   With the greedy strategy the optimized build dominates the floors, keeps within the cap
   every attribute whose floor is within it, and spends at most the points between the floors'
   level and the target.
   */
  lemma GreedyOutcome(input: OptimizerInput, evaluate: Attributes -> real)
    ensures var r := OptimizedAttributes(input, GreedyAllocate, evaluate);
      && r.AtLeast(Floors(input))
      && (forall a :: Floors(input).Get(a) <= Cap ==> r.Get(a) <= Cap)
      && 0 <= r.Sum() - Floors(input).Sum()
           <= (if input.targetLevel > LevelAfterMinimums(input) then input.targetLevel - LevelAfterMinimums(input) else 0)
  {
    if input.targetLevel < LevelAfterMinimums(input) {
      InfeasibleTargetReturnsFloors(input, GreedyAllocate, evaluate);
    } else {
      GreedyFeasibleOutcome(input, evaluate);
    }
  }

  /**
   With the greedy strategy the optimized build meets every user minimum and every weapon
   requirement.
   */
  lemma GreedyMeetsMinimums(input: OptimizerInput, evaluate: Attributes -> real)
    ensures forall a :: OptimizedAttributes(input, GreedyAllocate, evaluate).Get(a) >= PartialGet(input.minimumAttributes, a)
    ensures forall a :: OptimizedAttributes(input, GreedyAllocate, evaluate).Get(a) >= PartialGet(input.weapon.requirements, a)
  {
    var r := OptimizedAttributes(input, GreedyAllocate, evaluate);
    GreedyOutcome(input, evaluate);
    FloorAttributesBounds(GetStartingStats(input.startingClass).attributes, input.minimumAttributes, input.weapon.requirements);
    forall a ensures r.Get(a) >= PartialGet(input.minimumAttributes, a) && r.Get(a) >= PartialGet(input.weapon.requirements, a) {
      assert r.Get(a) >= Floors(input).Get(a);
    }
  }

  /**
   With the greedy strategy the optimized build's level is at least the floors' level and
   at most the larger of the target and the floors' level.
   */
  lemma GreedyLevelBound(input: OptimizerInput, evaluate: Attributes -> real)
    ensures var l := Level(OptimizedAttributes(input, GreedyAllocate, evaluate));
      LevelAfterMinimums(input) <= l <= if input.targetLevel > LevelAfterMinimums(input) then input.targetLevel else LevelAfterMinimums(input)
  {
    var base := GetStartingStats(input.startingClass).attributes;
    var r := OptimizedAttributes(input, GreedyAllocate, evaluate);
    GreedyOutcome(input, evaluate);
    LevelAfterMinimumsIsLevel(input);
    FloorAttributesBounds(base, input.minimumAttributes, input.weapon.requirements);
    assert r.AtLeast(base) by {
      forall a ensures r.Get(a) >= base.Get(a) {
        assert r.Get(a) >= Floors(input).Get(a) >= base.Get(a);
      }
    }
    LevelAboveClassBase(r, input.startingClass);
  }

  /** With the greedy strategy and a feasible target, the optimized build scores at least as well as the floors. */
  lemma GreedyNoWorseThanFloors(input: OptimizerInput, evaluate: Attributes -> real)
    requires input.targetLevel >= LevelAfterMinimums(input)
    ensures evaluate(OptimizedAttributes(input, GreedyAllocate, evaluate)) >= evaluate(Floors(input))
  {
    GreedyFeasibleOutcome(input, evaluate);
  }
}
