/**
 The build scorer (src/optimizer/evaluate.ts): one weapon, one set of attributes, and the
 objective weights give one number. A build that leaves a scaling attribute below the
 weapon's requirement gets a flat sentinel score; any other build gets the weighted sum of
 its attack power, status buildup and spell scaling.
 */
module Evaluate {
  import opened AttributeKeys
  import opened Weapons

  /** The part of the attack rating engine's answer that the scorer reads. */
  datatype AttackResult = AttackResult(
    attackPower: map<AttackPowerType, real>,
    spellScaling: map<AttackPowerType, real>,
    ineffectiveAttributes: seq<Attribute>)

  /** `ObjectiveWeights`: absent types weigh 0. */
  datatype ObjectiveWeights = ObjectiveWeights(
    attackPower: map<AttackPowerType, real>,
    statusEffect: map<AttackPowerType, real>,
    spellScaling: map<AttackPowerType, real>)

  /**
   The attack rating engine `getWeaponAttack` (weapon, attributes, upgrade level, two-handing)
   and the type lists it exports: every `AttackPowerType`, `allDamageTypes` and `allStatusTypes`.
   */
  datatype Calculator = Calculator(
    getWeaponAttack: (Weapon, Attributes, int, bool) -> AttackResult,
    attackPowerTypes: seq<AttackPowerType>,
    damageTypes: seq<AttackPowerType>,
    statusTypes: seq<AttackPowerType>)
  {
    /** `relevantTypes`: damage types, then status types. */
    function RelevantTypes(): seq<AttackPowerType> {
      damageTypes + statusTypes
    }
  }

  /** The score of a build that misses a requirement that matters: `-1e9`. */
  const RequirementPenalty: real := -1000000000.0

  /** `m[t] ?? 0` */
  function ValueOr0(m: map<AttackPowerType, real>, t: AttackPowerType): (r: real)
    ensures t in m ==> r == m[t]
    ensures t !in m ==> r == 0.0
  {
    if t in m then m[t] else 0.0
  }

  /** `weapon.attackElementCorrect[type]?.[attr]` is truthy. */
  predicate ScalesWith(weapon: Weapon, t: AttackPowerType, attr: Attribute) {
    t in weapon.attackElementCorrect && attr in weapon.attackElementCorrect[t] && weapon.attackElementCorrect[t][attr]
  }

  /** `affectsScaling`: some attack power type of the weapon scales with `attr`. */
  predicate AffectsScaling(weapon: Weapon, types: seq<AttackPowerType>, attr: Attribute) {
    exists t :: t in types && ScalesWith(weapon, t, attr)
  }

  /** `requirementPenalty`: some ineffective attribute affects the weapon's scaling. */
  predicate PenaltyApplies(weapon: Weapon, types: seq<AttackPowerType>, ineffective: seq<Attribute>) {
    exists attr :: attr in ineffective && AffectsScaling(weapon, types, attr)
  }

  /** One `if (weight > 0) score += value * weight` step: what it adds. */
  function Weighted(value: real, weight: real): (r: real)
    ensures weight <= 0.0 ==> r == 0.0
    ensures value >= 0.0 ==> r >= 0.0
  {
    if weight > 0.0 then value * weight else 0.0
  }

  /** What one type adds to the score: attack power, status buildup and spell scaling, each with its own weight. */
  function TypeScore(r: AttackResult, w: ObjectiveWeights, t: AttackPowerType): real {
    Weighted(ValueOr0(r.attackPower, t), ValueOr0(w.attackPower, t))
    + Weighted(ValueOr0(r.attackPower, t), ValueOr0(w.statusEffect, t))
    + Weighted(ValueOr0(r.spellScaling, t), ValueOr0(w.spellScaling, t))
  }

  /** `score` after the scoring loop has run over `ts`, starting from 0. */
  function WeightedScore(r: AttackResult, w: ObjectiveWeights, ts: seq<AttackPowerType>): real {
    if |ts| == 0 then 0.0
    else WeightedScore(r, w, ts[..|ts| - 1]) + TypeScore(r, w, ts[|ts| - 1])
  }

  /** The score of a build: the sentinel when the penalty applies, the weighted sum otherwise. */
  function BuildScore(attributes: Attributes, weapon: Weapon, upgradeLevel: int, weights: ObjectiveWeights, engine: Calculator): real {
    var r := engine.getWeaponAttack(weapon, attributes, upgradeLevel, false);
    if PenaltyApplies(weapon, engine.attackPowerTypes, r.ineffectiveAttributes) then RequirementPenalty
    else WeightedScore(r, weights, engine.RelevantTypes())
  }

  /** `calculateBuildScore`: the penalty loop with its early return, then the scoring loop. */
  method CalculateBuildScore(attributes: Attributes, weapon: Weapon, upgradeLevel: int, weights: ObjectiveWeights, engine: Calculator)
    returns (score: real)
    ensures score == BuildScore(attributes, weapon, upgradeLevel, weights, engine)
  {
    var attackResult := engine.getWeaponAttack(weapon, attributes, upgradeLevel, false);
    score := 0.0;
    var ineffective := attackResult.ineffectiveAttributes;
    if |ineffective| > 0 {
      var requirementPenalty := false;
      ghost var culprit: Attribute := Vig;
      for i := 0 to |ineffective|
        invariant !requirementPenalty
        invariant forall j :: 0 <= j < i ==> !AffectsScaling(weapon, engine.attackPowerTypes, ineffective[j])
      {
        var affectsScaling := AffectsScaling(weapon, engine.attackPowerTypes, ineffective[i]);
        if affectsScaling {
          culprit := ineffective[i];
          requirementPenalty := true;
          break;
        }
      }
      if requirementPenalty {
        assert culprit in ineffective && AffectsScaling(weapon, engine.attackPowerTypes, culprit);
        return RequirementPenalty;
      }
    }
    assert !PenaltyApplies(weapon, engine.attackPowerTypes, ineffective);
    score := AccumulateScore(attackResult, weights, engine.damageTypes + engine.statusTypes);
  }

  /** The scoring loop of `calculateBuildScore` over `relevantTypes`, starting from 0. */
  method AccumulateScore(attackResult: AttackResult, weights: ObjectiveWeights, relevantTypes: seq<AttackPowerType>)
    returns (score: real)
    ensures score == WeightedScore(attackResult, weights, relevantTypes)
  {
    score := 0.0;
    for i := 0 to |relevantTypes|
      invariant score == WeightedScore(attackResult, weights, relevantTypes[..i])
    {
      ghost var before := score;
      var t := relevantTypes[i];
      var apWeight := ValueOr0(weights.attackPower, t);
      var statusWeight := ValueOr0(weights.statusEffect, t);
      var scalingWeight := ValueOr0(weights.spellScaling, t);
      if apWeight > 0.0 {
        score := score + ValueOr0(attackResult.attackPower, t) * apWeight;
      }
      if statusWeight > 0.0 {
        score := score + ValueOr0(attackResult.attackPower, t) * statusWeight;
      }
      if scalingWeight > 0.0 {
        score := score + ValueOr0(attackResult.spellScaling, t) * scalingWeight;
      }
      assert score == before + Weighted(ValueOr0(attackResult.attackPower, t), apWeight)
        + Weighted(ValueOr0(attackResult.attackPower, t), statusWeight)
        + Weighted(ValueOr0(attackResult.spellScaling, t), scalingWeight);
      assert relevantTypes[..i + 1][..i] == relevantTypes[..i];
    }
    assert relevantTypes[..|relevantTypes|] == relevantTypes;
  }

  /** Every value the engine reported is non-negative. */
  predicate NonNegativeValues(r: AttackResult) {
    (forall t :: t in r.attackPower ==> r.attackPower[t] >= 0.0)
    && (forall t :: t in r.spellScaling ==> r.spellScaling[t] >= 0.0)
  }

  /** With non-negative engine values the weighted sum is non-negative: only products of non-negative terms are added. */
  lemma {:induction false} WeightedScoreNonNegative(r: AttackResult, w: ObjectiveWeights, ts: seq<AttackPowerType>)
    requires NonNegativeValues(r)
    ensures WeightedScore(r, w, ts) >= 0.0
  {
    if |ts| > 0 {
      WeightedScoreNonNegative(r, w, ts[..|ts| - 1]);
      var t := ts[|ts| - 1];
      assert ValueOr0(r.attackPower, t) >= 0.0 && ValueOr0(r.spellScaling, t) >= 0.0;
    }
  }

  /** A build without the penalty and with non-negative engine values scores at least 0, so above every penalised build. */
  lemma PenaltyRanksBelow(attributes: Attributes, weapon: Weapon, upgradeLevel: int, weights: ObjectiveWeights, engine: Calculator)
    requires var r := engine.getWeaponAttack(weapon, attributes, upgradeLevel, false);
      NonNegativeValues(r) && !PenaltyApplies(weapon, engine.attackPowerTypes, r.ineffectiveAttributes)
    ensures BuildScore(attributes, weapon, upgradeLevel, weights, engine) >= 0.0 > RequirementPenalty
  {
    var r := engine.getWeaponAttack(weapon, attributes, upgradeLevel, false);
    WeightedScoreNonNegative(r, weights, engine.RelevantTypes());
  }

  /**
   One ineffective attribute that some attack power type of the weapon scales with is enough:
   the score is then exactly the sentinel, whatever the weights and the engine's values.
   */
  lemma PenaltyScore(attributes: Attributes, weapon: Weapon, upgradeLevel: int, weights: ObjectiveWeights, engine: Calculator,
                     attr: Attribute, t: AttackPowerType)
    requires attr in engine.getWeaponAttack(weapon, attributes, upgradeLevel, false).ineffectiveAttributes
    requires t in engine.attackPowerTypes && ScalesWith(weapon, t, attr)
    ensures BuildScore(attributes, weapon, upgradeLevel, weights, engine) == RequirementPenalty
  {
    assert AffectsScaling(weapon, engine.attackPowerTypes, attr);
  }

  /** Ineffective attributes that no attack power type scales with cause no penalty. */
  lemma HarmlessIneffectiveAttributes(attributes: Attributes, weapon: Weapon, upgradeLevel: int, weights: ObjectiveWeights, engine: Calculator)
    requires var r := engine.getWeaponAttack(weapon, attributes, upgradeLevel, false);
      forall attr :: attr in r.ineffectiveAttributes ==> forall t :: t in engine.attackPowerTypes ==> !ScalesWith(weapon, t, attr)
    ensures BuildScore(attributes, weapon, upgradeLevel, weights, engine)
      == WeightedScore(engine.getWeaponAttack(weapon, attributes, upgradeLevel, false), weights, engine.RelevantTypes())
  {
  }

  /** The weights with every non-positive entry removed. */
  function PositivePart(m: map<AttackPowerType, real>): (p: map<AttackPowerType, real>)
    ensures forall t :: t in p <==> t in m && m[t] > 0.0
    ensures forall t :: t in p ==> p[t] == m[t]
  {
    map t | t in m && m[t] > 0.0 :: m[t]
  }

  /** Non-positive weights contribute nothing: dropping them leaves the score unchanged. */
  lemma {:induction false} NonPositiveWeightsIgnored(r: AttackResult, w: ObjectiveWeights, ts: seq<AttackPowerType>)
    ensures WeightedScore(r, w, ts)
      == WeightedScore(r, ObjectiveWeights(PositivePart(w.attackPower), PositivePart(w.statusEffect), PositivePart(w.spellScaling)), ts)
  {
    if |ts| > 0 {
      NonPositiveWeightsIgnored(r, w, ts[..|ts| - 1]);
      TypeScorePositivePart(r, w, ts[|ts| - 1]);
    }
  }

  lemma TypeScorePositivePart(r: AttackResult, w: ObjectiveWeights, t: AttackPowerType)
    ensures TypeScore(r, w, t)
      == TypeScore(r, ObjectiveWeights(PositivePart(w.attackPower), PositivePart(w.statusEffect), PositivePart(w.spellScaling)), t)
  {
    var p := ObjectiveWeights(PositivePart(w.attackPower), PositivePart(w.statusEffect), PositivePart(w.spellScaling));
    WeightedPositivePart(ValueOr0(r.attackPower, t), w.attackPower, t);
    WeightedPositivePart(ValueOr0(r.attackPower, t), w.statusEffect, t);
    WeightedPositivePart(ValueOr0(r.spellScaling, t), w.spellScaling, t);
  }

  lemma WeightedPositivePart(value: real, m: map<AttackPowerType, real>, t: AttackPowerType)
    ensures Weighted(value, ValueOr0(m, t)) == Weighted(value, ValueOr0(PositivePart(m), t))
  {
    if ValueOr0(m, t) > 0.0 {
      assert ValueOr0(PositivePart(m), t) == ValueOr0(m, t);
    } else {
      assert ValueOr0(PositivePart(m), t) == 0.0;
    }
  }

  /** The map with an explicit 0 for `t` when `t` was absent. */
  function ZeroFilled(m: map<AttackPowerType, real>, t: AttackPowerType): (z: map<AttackPowerType, real>)
    ensures t in z && z.Keys == m.Keys + {t}
    ensures forall u :: u in m ==> z[u] == m[u]
    ensures t !in m ==> z[t] == 0.0
  {
    if t in m then m else m[t := 0.0]
  }

  /** Absent weights and absent engine values count as 0: writing the 0 explicitly changes nothing. */
  lemma {:induction false} AbsentCountsAsZero(r: AttackResult, w: ObjectiveWeights, ts: seq<AttackPowerType>, t: AttackPowerType)
    ensures WeightedScore(r, w, ts) == WeightedScore(
      r.(attackPower := ZeroFilled(r.attackPower, t), spellScaling := ZeroFilled(r.spellScaling, t)),
      ObjectiveWeights(ZeroFilled(w.attackPower, t), ZeroFilled(w.statusEffect, t), ZeroFilled(w.spellScaling, t)),
      ts)
  {
    if |ts| > 0 {
      AbsentCountsAsZero(r, w, ts[..|ts| - 1], t);
      TypeScoreZeroFilled(r, w, ts[|ts| - 1], t);
    }
  }

  lemma TypeScoreZeroFilled(r: AttackResult, w: ObjectiveWeights, u: AttackPowerType, t: AttackPowerType)
    ensures TypeScore(r, w, u) == TypeScore(
      r.(attackPower := ZeroFilled(r.attackPower, t), spellScaling := ZeroFilled(r.spellScaling, t)),
      ObjectiveWeights(ZeroFilled(w.attackPower, t), ZeroFilled(w.statusEffect, t), ZeroFilled(w.spellScaling, t)),
      u)
  {
    var r' := r.(attackPower := ZeroFilled(r.attackPower, t), spellScaling := ZeroFilled(r.spellScaling, t));
    var w' := ObjectiveWeights(ZeroFilled(w.attackPower, t), ZeroFilled(w.statusEffect, t), ZeroFilled(w.spellScaling, t));
    assert ValueOr0(r'.attackPower, u) == ValueOr0(r.attackPower, u);
    assert ValueOr0(r'.spellScaling, u) == ValueOr0(r.spellScaling, u);
    assert ValueOr0(w'.attackPower, u) == ValueOr0(w.attackPower, u);
    assert ValueOr0(w'.statusEffect, u) == ValueOr0(w.statusEffect, u);
    assert ValueOr0(w'.spellScaling, u) == ValueOr0(w.spellScaling, u);
  }

  /** The score is a sum over the types: the scoring loop over `a + b` is the loop over `a` plus the loop over `b`. */
  lemma {:induction false} WeightedScoreAppend(r: AttackResult, w: ObjectiveWeights, a: seq<AttackPowerType>, b: seq<AttackPowerType>)
    ensures WeightedScore(r, w, a + b) == WeightedScore(r, w, a) + WeightedScore(r, w, b)
  {
    if |b| > 0 {
      assert (a + b)[..|a + b| - 1] == a + b[..|b| - 1];
      WeightedScoreAppend(r, w, a, b[..|b| - 1]);
    } else {
      assert a + b == a;
    }
  }
}
