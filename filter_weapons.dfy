/**
 The weapon search filter (src/search/filterWeapons.ts): keeps the weapons that match an
 upgrade level, a set of weapon types and affinities, a weight limit and, optionally, a set of
 attributes they must be fully effective with. The upgrade level is given on the regular
 scale (+0 to +25); weapons on the special, somber scale (+0 to +10) are matched against its
 rescaled equivalent.
 */
module WeaponFilter {
  import opened Wrappers
  import opened AttributeKeys
  import opened Weapons

  /** `maxRegularUpgradeLevel` and `maxSpecialUpgradeLevel` of the calculator. */
  const MaxRegularUpgradeLevel: int := 25
  const MaxSpecialUpgradeLevel: int := 10

  /**
   `floor((regular + 0.5) * maxSpecial / maxRegular)`, computed exactly in integers as
   `((2 * regular + 1) * maxSpecial) / (2 * maxRegular)` (Dafny's `/` rounds down for a
   positive divisor). The result is characterised as that floor.
   */
  function SpecialUpgradeLevel(regular: int, maxRegular: int, maxSpecial: int): (s: int)
    requires maxRegular > 0
    ensures s * (2 * maxRegular) <= (2 * regular + 1) * maxSpecial < (s + 1) * (2 * maxRegular)
  {
    ((2 * regular + 1) * maxSpecial) / (2 * maxRegular)
  }

  /** `toSpecialUpgradeLevel`: the special-tier level matched with a regular-tier level. */
  function ToSpecialUpgradeLevel(regular: int): (s: int)
    ensures s * 50 <= 20 * regular + 10 < (s + 1) * 50
  {
    SpecialUpgradeLevel(regular, MaxRegularUpgradeLevel, MaxSpecialUpgradeLevel)
  }

  /** The three levels the comment at filterWeapons.ts:47-50 mentions: +24 gives +9, +25 gives +10, +0 gives +0. */
  lemma ToSpecialUpgradeLevelExamples()
    ensures ToSpecialUpgradeLevel(24) == 9
    ensures ToSpecialUpgradeLevel(25) == 10
    ensures ToSpecialUpgradeLevel(0) == 0
  {
  }

  lemma MulMonotone(a: int, b: int, c: int)
    requires a <= b && c >= 0
    ensures a * c <= b * c
  {
  }

  /** A higher regular level never gives a lower special level. */
  lemma SpecialUpgradeLevelMonotone(r1: int, r2: int, maxRegular: int, maxSpecial: int)
    requires maxRegular > 0 && maxSpecial >= 0
    requires r1 <= r2
    ensures SpecialUpgradeLevel(r1, maxRegular, maxSpecial) <= SpecialUpgradeLevel(r2, maxRegular, maxSpecial)
  {
    var s1 := SpecialUpgradeLevel(r1, maxRegular, maxSpecial);
    var s2 := SpecialUpgradeLevel(r2, maxRegular, maxSpecial);
    MulMonotone(2 * r1 + 1, 2 * r2 + 1, maxSpecial);
    if s1 > s2 {
      MulMonotone(s2 + 1, s1, 2 * maxRegular);
    }
  }

  /** A quotient of a non-negative numerator below `(m + 1) * d` lies in `0..m`. */
  lemma FloorDivRange(n: int, d: int, m: int)
    requires d > 0 && 0 <= n < (m + 1) * d
    ensures 0 <= n / d <= m
  {
    var q := n / d;
    if q < 0 {
      MulMonotone(q, -1, d);
    }
    if q > m {
      MulMonotone(m + 1, q, d);
    }
  }

  /** When the special scale is no longer than the regular one, the levels `0..maxRegular` map into `0..maxSpecial`. */
  lemma SpecialUpgradeLevelRange(r: int, maxRegular: int, maxSpecial: int)
    requires 0 < maxRegular && 0 <= maxSpecial <= maxRegular
    requires 0 <= r <= maxRegular
    ensures 0 <= SpecialUpgradeLevel(r, maxRegular, maxSpecial) <= maxSpecial
  {
    var n := (2 * r + 1) * maxSpecial;
    MulMonotone(2 * r + 1, 2 * maxRegular + 1, maxSpecial);
    MulMonotone(0, 2 * r + 1, maxSpecial);
    assert (2 * maxRegular + 1) * maxSpecial < (maxSpecial + 1) * (2 * maxRegular);
    FloorDivRange(n, 2 * maxRegular, maxSpecial);
  }

  /** The concrete scales: `+0..+25` map into `+0..+10`, monotonically. */
  lemma ToSpecialUpgradeLevelBounds(r1: int, r2: int)
    requires 0 <= r1 <= r2 <= MaxRegularUpgradeLevel
    ensures 0 <= ToSpecialUpgradeLevel(r1) <= ToSpecialUpgradeLevel(r2) <= MaxSpecialUpgradeLevel
  {
    SpecialUpgradeLevelMonotone(r1, r2, MaxRegularUpgradeLevel, MaxSpecialUpgradeLevel);
    SpecialUpgradeLevelRange(r1, MaxRegularUpgradeLevel, MaxSpecialUpgradeLevel);
    SpecialUpgradeLevelRange(r2, MaxRegularUpgradeLevel, MaxSpecialUpgradeLevel);
  }

  /** `uninfusableWeaponTypes`: types that can never take an affinity. */
  const UninfusableWeaponTypes: seq<WeaponType> :=
    ["Light Bow", "Bow", "Greatbow", "Crossbow", "Ballista", "Torch", "Glintstone Staff", "Sacred Seal"]

  /** The affinity name that also admits the uninfusable types. */
  const StandardAffinity: Affinity := "Standard"

  /** `FilterWeaponsOptions`; the two optional fields are `Option`s. */
  datatype FilterWeaponsOptions = FilterWeaponsOptions(
    upgradeLevel: int,
    weaponTypes: seq<WeaponType>,
    affinities: seq<Affinity>,
    maxWeight: real,
    effectiveWithAttributes: Option<Attributes>,
    twoHanding: Option<bool>)

  /** `adjustAttributesForTwoHanding` of the calculator (two-handing flag, weapon, attributes). */
  type TwoHandingAdjustment = (Option<bool>, Weapon, Attributes) -> Attributes

  /** The test inside `affinities.some(...)`. */
  predicate AffinityAdmits(affinity: Affinity, weapon: Weapon) {
    affinity == weapon.metadata.affinity
    || (affinity == StandardAffinity && weapon.metadata.weaponType in UninfusableWeaponTypes)
  }

  /** Some requirement of the weapon is above the given attribute value. */
  predicate MissesRequirement(weapon: Weapon, attributes: Attributes) {
    exists a :: a in weapon.requirements && attributes.Get(a) < weapon.requirements[a]
  }

  /** `filterWeapon`: the checks in source order, each returning `false` early. */
  predicate FilterWeapon(options: FilterWeaponsOptions, specialUpgradeLevel: int, adjust: TwoHandingAdjustment, weapon: Weapon) {
    var m := weapon.metadata;
    if m.maxUpgradeLevel == MaxRegularUpgradeLevel && m.upgradeLevel != options.upgradeLevel then false
    else if m.maxUpgradeLevel == MaxSpecialUpgradeLevel && m.upgradeLevel != specialUpgradeLevel then false
    else if |options.weaponTypes| > 0 && m.weaponType !in options.weaponTypes then false
    else if |options.affinities| > 0 && !(exists affinity :: affinity in options.affinities && AffinityAdmits(affinity, weapon)) then false
    else if m.weight > options.maxWeight then false
    else if options.effectiveWithAttributes.Some? then
      var attributes := adjust(options.twoHanding, weapon, options.effectiveWithAttributes.value);
      !MissesRequirement(weapon, attributes)
    else true
  }

  /**
   What `filterWeapon` accepts, stated check by check: the upgrade tier, the type list (empty
   means any type), the affinity list (empty means any affinity; "Standard" also admits the
   uninfusable types), the weight limit, and full effectiveness with the two-hand-adjusted
   attributes when attributes are given.
   */
  lemma FilterWeaponAccepts(options: FilterWeaponsOptions, adjust: TwoHandingAdjustment, weapon: Weapon)
    ensures FilterWeapon(options, ToSpecialUpgradeLevel(options.upgradeLevel), adjust, weapon) <==>
      && (weapon.metadata.maxUpgradeLevel == MaxRegularUpgradeLevel ==> weapon.metadata.upgradeLevel == options.upgradeLevel)
      && (weapon.metadata.maxUpgradeLevel == MaxSpecialUpgradeLevel ==> weapon.metadata.upgradeLevel == ToSpecialUpgradeLevel(options.upgradeLevel))
      && (options.weaponTypes == [] || weapon.metadata.weaponType in options.weaponTypes)
      && (options.affinities == []
          || weapon.metadata.affinity in options.affinities
          || (StandardAffinity in options.affinities && weapon.metadata.weaponType in UninfusableWeaponTypes))
      && weapon.metadata.weight <= options.maxWeight
      && (options.effectiveWithAttributes.Some? ==>
            forall a :: a in weapon.requirements ==>
              adjust(options.twoHanding, weapon, options.effectiveWithAttributes.value).Get(a) >= weapon.requirements[a])
  {
    if weapon.metadata.affinity in options.affinities {
      assert AffinityAdmits(weapon.metadata.affinity, weapon);
    }
    if StandardAffinity in options.affinities && weapon.metadata.weaponType in UninfusableWeaponTypes {
      assert AffinityAdmits(StandardAffinity, weapon);
    }
  }

  /**
   A search for +25 Standard axes up to weight 20 keeps only +25 regular or +10 special axes
   of Standard affinity weighing at most 20.
   */
  lemma AxeSearchExample(adjust: TwoHandingAdjustment, weapon: Weapon)
    requires FilterWeapon(FilterWeaponsOptions(25, ["Axe"], [StandardAffinity], 20.0, None, None),
                          ToSpecialUpgradeLevel(25), adjust, weapon)
    ensures weapon.metadata.weaponType == "Axe"
    ensures weapon.metadata.affinity == StandardAffinity
    ensures weapon.metadata.weight <= 20.0
    ensures weapon.metadata.maxUpgradeLevel == MaxRegularUpgradeLevel ==> weapon.metadata.upgradeLevel == 25
    ensures weapon.metadata.maxUpgradeLevel == MaxSpecialUpgradeLevel ==> weapon.metadata.upgradeLevel == 10
  {
    var options := FilterWeaponsOptions(25, ["Axe"], [StandardAffinity], 20.0, None, None);
    FilterWeaponAccepts(options, adjust, weapon);
    ToSpecialUpgradeLevelExamples();
    assert weapon.metadata.weaponType in ["Axe"];
  }

  /** `filteredWeapons` after the loop has looked at the weapons `ws`, in order. */
  function Kept(ws: seq<Weapon>, options: FilterWeaponsOptions, specialUpgradeLevel: int, adjust: TwoHandingAdjustment): seq<Weapon> {
    if |ws| == 0 then []
    else
      Kept(ws[..|ws| - 1], options, specialUpgradeLevel, adjust)
      + (if FilterWeapon(options, specialUpgradeLevel, adjust, ws[|ws| - 1]) then [ws[|ws| - 1]] else [])
  }

  /** `filterWeapons`: `filterWeapon` once per weapon, pushing the ones it accepts. */
  method FilterWeapons(weapons: seq<Weapon>, options: FilterWeaponsOptions, adjust: TwoHandingAdjustment)
    returns (filteredWeapons: seq<Weapon>)
    ensures filteredWeapons == Kept(weapons, options, ToSpecialUpgradeLevel(options.upgradeLevel), adjust)
  {
    var specialUpgradeLevel := ToSpecialUpgradeLevel(options.upgradeLevel);
    filteredWeapons := [];
    for i := 0 to |weapons|
      invariant filteredWeapons == Kept(weapons[..i], options, specialUpgradeLevel, adjust)
    {
      if FilterWeapon(options, specialUpgradeLevel, adjust, weapons[i]) {
        filteredWeapons := filteredWeapons + [weapons[i]];
      }
      assert weapons[..i + 1][..i] == weapons[..i];
    }
    assert weapons[..|weapons|] == weapons;
  }

  /** A weapon is in the output exactly when it is in the input and `filterWeapon` accepts it. */
  lemma {:induction false} KeptMembers(ws: seq<Weapon>, options: FilterWeaponsOptions, s: int, adjust: TwoHandingAdjustment, w: Weapon)
    ensures w in Kept(ws, options, s, adjust) <==> w in ws && FilterWeapon(options, s, adjust, w)
  {
    if |ws| > 0 {
      KeptMembers(ws[..|ws| - 1], options, s, adjust, w);
      assert ws == ws[..|ws| - 1] + [ws[|ws| - 1]];
    }
  }

  /** Duplicates are kept: an accepted weapon occurs in the output as often as in the input, a rejected one never. */
  lemma {:induction false} KeptCounts(ws: seq<Weapon>, options: FilterWeaponsOptions, s: int, adjust: TwoHandingAdjustment, w: Weapon)
    ensures multiset(Kept(ws, options, s, adjust))[w] == if FilterWeapon(options, s, adjust, w) then multiset(ws)[w] else 0
  {
    if |ws| > 0 {
      KeptCounts(ws[..|ws| - 1], options, s, adjust, w);
      assert ws == ws[..|ws| - 1] + [ws[|ws| - 1]];
    }
  }

  /** Input order is kept: filtering `a + b` gives the kept weapons of `a`, then those of `b`. */
  lemma {:induction false} KeptAppend(a: seq<Weapon>, b: seq<Weapon>, options: FilterWeaponsOptions, s: int, adjust: TwoHandingAdjustment)
    ensures Kept(a + b, options, s, adjust) == Kept(a, options, s, adjust) + Kept(b, options, s, adjust)
  {
    if |b| == 0 {
      assert a + b == a;
    } else {
      assert (a + b)[..|a + b| - 1] == a + b[..|b| - 1];
      KeptAppend(a, b[..|b| - 1], options, s, adjust);
    }
  }
}
