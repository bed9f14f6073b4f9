/**
 The parts of a weapon (src/calculator/weapon.ts) that the optimizer and the weapon filter
 read. The inputs that only the attack rating engine reads (base attack, scaling amounts,
 scaling curves) are not part of this model.
 */
module Weapons {
  import opened AttributeKeys

  /** An `AttackPowerType` of the attack rating engine, identified by its number. */
  type AttackPowerType = int

  /**
   Weapon types and affinities are compared by name in the weapon filter; the type values are
   assumed to be the names the filter lists, not the numeric ids of weaponTypes.ts.
   */
  type WeaponType = string
  type Affinity = string

  datatype WeaponMetadata = WeaponMetadata(
    weight: real,
    upgradeLevel: int,
    maxUpgradeLevel: int,
    weaponName: string,
    affinity: Affinity,
    weaponType: WeaponType)

  datatype Weapon = Weapon(
    name: string,
    metadata: WeaponMetadata,
    /** Attribute thresholds for full effectiveness; absent keys have no requirement. */
    requirements: PartialAttributes,
    /**
     `attackElementCorrect[type][attr]`: whether damage of `type` scales with `attr`. The
     scorer reads this field although `Weapon` in weapon.ts does not declare it; its shape,
     keyed by numeric type ids with the truthy entry reduced to `bool`, is assumed.
     */
    attackElementCorrect: map<AttackPowerType, map<Attribute, bool>>)
}
