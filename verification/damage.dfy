/**
 * Damage-type bits (`DMG_*`).  A damage type is the set of bits it carries;
 * the bit values themselves do not matter to any rule modelled here, only
 * which bits are tested together.
 */
module Damage {
  datatype DamageKind =
    | Bullet | Buckshot | Blast | Club | Crush | Slash | Shock
    | Airboat | MissileDefense | Burn | Fall | Vehicle | Dissolve | Other

  /** `info.GetDamageType() & mask` is non-zero. */
  predicate AnyOf(types: set<DamageKind>, mask: set<DamageKind>)
  {
    types * mask != {}
  }

  /** A one-bit mask tests that bit. */
  lemma AnyOfSingle(types: set<DamageKind>, k: DamageKind)
    ensures AnyOf(types, {k}) <==> k in types
  {
    if k in types {
      assert k in types * {k};
    }
  }
}
