/**
 * The breakable armour pieces soldiers wear (`item_armor.cpp`): a helmet,
 * a big shield and a small shield.  They share `CItem_Armor`'s damage rule
 * and death state; only their starting health differs.
 */
module Armor {
  import opened Numeric
  import opened Damage

  /** Default of `acsmod_armor_health`. */
  const DefaultArmorHealth: real := 30.0
  /** Melee and crushing damage is multiplied by this before the base handler. */
  const MeleeScale: real := 10.0
  /** The damage kinds that are scaled. */
  const Scaled: set<DamageKind> := {Club, Crush, Slash, Airboat}

  datatype Kind = Helmet | BigShield | SmallShield

  datatype Piece = Piece(kind: Kind, health: int, solid: bool, takesDamage: bool)

  /** The health `Spawn` gives each kind: `SetHealth` truncates the float. */
  function SpawnHealth(kind: Kind, cvar: real): (h: int)
    ensures kind == Helmet ==> h as real <= cvar * 0.5 < h as real + 1.0 || cvar < 0.0
    ensures kind == SmallShield ==> h == Trunc(cvar)
    ensures kind == BigShield ==> h == Trunc(cvar * 10.0)
  {
    match kind
    case Helmet => Trunc(cvar * 0.5)
    case BigShield => Trunc(cvar * 10.0)
    case SmallShield => Trunc(cvar)
  }

  /** With the default setting the helmet has 15, the small shield 30, the big shield 300. */
  lemma DefaultTiers()
    ensures SpawnHealth(Helmet, DefaultArmorHealth) == 15
    ensures SpawnHealth(SmallShield, DefaultArmorHealth) == 30
    ensures SpawnHealth(BigShield, DefaultArmorHealth) == 300
  {
    TruncOfInt(15);
    TruncOfInt(30);
    TruncOfInt(300);
  }

  /** For any non-negative setting the helmet is weakest and the big shield strongest. */
  lemma TiersOrdered(cvar: real)
    requires cvar >= 0.0
    ensures 0 <= SpawnHealth(Helmet, cvar) <= SpawnHealth(SmallShield, cvar) <= SpawnHealth(BigShield, cvar)
  {
    TruncMonotone(cvar * 0.5, cvar);
    TruncMonotone(cvar, cvar * 10.0);
  }

  /** `Spawn`: the piece is solid, takes damage and has its kind's health. */
  function Spawn(kind: Kind, cvar: real): (p: Piece)
    ensures p.kind == kind && p.solid && p.takesDamage && p.health == SpawnHealth(kind, cvar)
  {
    Piece(kind, SpawnHealth(kind, cvar), true, true)
  }

  /**
   * `CItem_Armor::OnTakeDamage`, for every kind (each subclass forwards to
   * it unchanged): the damage handed to the base item handler, ten times
   * larger for club, crush, slash or airboat damage.
   */
  function DamageToBase(types: set<DamageKind>, damage: real): (d: real)
    ensures AnyOf(types, Scaled) ==> d == MeleeScale * damage
    ensures !AnyOf(types, Scaled) ==> d == damage
  {
    if AnyOf(types, Scaled) then damage * MeleeScale else damage
  }

  /** A single scaled bit is enough, whatever else the damage carries. */
  lemma MeleeScaledAlone(types: set<DamageKind>, k: DamageKind, damage: real)
    requires k in Scaled && k in types
    ensures DamageToBase(types, damage) == 10.0 * damage
  {
    assert k in types * Scaled;
  }

  /** Bullets and blasts reach the base handler as they are. */
  lemma RangedUnscaled(damage: real)
    ensures DamageToBase({Bullet, Buckshot, Blast}, damage) == damage
  {
    assert {Bullet, Buckshot, Blast} * Scaled == {};
  }

  /** `Event_Killed`: the piece stops being solid and stops taking damage. */
  function Killed(p: Piece): (r: Piece)
    ensures !r.solid && !r.takesDamage
    ensures r.kind == p.kind && r.health == p.health
  {
    p.(solid := false, takesDamage := false)
  }

  /**
   * Killing a freshly spawned piece undoes exactly what `Spawn` switched
   * on and keeps its kind and health, and a dead piece stays as it is.
   */
  lemma KilledUndoesSpawn(kind: Kind, cvar: real)
    ensures Killed(Spawn(kind, cvar)) == Piece(kind, SpawnHealth(kind, cvar), false, false)
    ensures Killed(Killed(Spawn(kind, cvar))) == Killed(Spawn(kind, cvar))
    ensures Spawn(kind, cvar) != Killed(Spawn(kind, cvar))
  {
  }
}
