/**
 * The combine soldier's own rules (`CNPC_CombineS`): the energy shield of
 * elite and invisible soldiers, the spawn-time shield and loadout, which
 * damage counts as heavy, the two condition tweaks, and the early exit of
 * `Event_Killed`.  Every random draw of `Spawn` is an input.
 */
module Combine {
  import opened Numeric
  import opened Damage

  /** Default of `acsmod_combine_shield_health`. */
  const DefaultShieldCvar: real := 100.0
  /** An invisible soldier gets a third of the shield cvar. */
  const InvisibleShieldDivisor: real := 3.0
  /** Health at or below which a non-elite soldier killed by a blast bursts. */
  const GoreHealth: int := -90

  datatype Soldier = Soldier(
    elite: bool,
    invisible: bool,
    shield: int,
    helmet: bool,
    smallShield: bool,
    bigShield: bool,
    pistol: bool,
    magnum: bool,
    grenade: bool,
    smg: bool,
    shotgun: bool,
    sniper: bool)

  /**
   * The results of `Spawn`'s `RandomInt` calls, in source order; each is
   * only read when the code reaches its draw.  The skill and held-weapon
   * chance modifiers only move the upper bounds of these draws.
   */
  datatype Rolls = Rolls(
    invisible: int,
    helmet: int,
    smallShield: int,
    bigShield: int,
    pistol: int,
    magnum: int,
    grenade: int,
    smg: int,
    shotgun: int,
    sniper: int)

  /**
   * `Spawn`'s shield and loadout.  Outside nag mode a zero invisibility
   * draw makes the soldier invisible; invisible soldiers get a third of the
   * shield cvar and elites the full cvar, the elite assignment coming
   * second.  Only visible soldiers draw a loadout, in which the small and
   * big shields, pistol and 357, and SMG and shotgun exclude each other.
   */
  function Spawn(elite: bool, shield0: int, nag: bool, cvar: real, rolls: Rolls): (s: Soldier)
    ensures s.elite == elite
    ensures s.invisible <==> !nag && rolls.invisible == 0
    ensures s.shield == (if elite then Trunc(cvar) else if s.invisible then Trunc(cvar / InvisibleShieldDivisor) else shield0)
    ensures s.invisible ==> Unarmed(s)
    ensures !(s.smallShield && s.bigShield)
    ensures !(s.pistol && s.magnum)
    ensures !(s.smg && s.shotgun)
    ensures nag ==> !s.magnum
  {
    var invisible := !nag && rolls.invisible == 0;
    var shield := if elite then Trunc(cvar) else if invisible then Trunc(cvar / InvisibleShieldDivisor) else shield0;
    var bare := Soldier(elite, invisible, shield, false, false, false, false, false, false, false, false, false);
    if invisible then bare
    else
      var small := rolls.smallShield <= 0;
      var pistol := rolls.pistol == 0;
      var smg := rolls.smg == 0;
      bare.(
        helmet := rolls.helmet <= 0,
        smallShield := small,
        bigShield := !small && rolls.bigShield <= 0,
        pistol := pistol,
        magnum := !pistol && rolls.magnum == 0 && !nag,
        grenade := rolls.grenade == 0,
        smg := smg,
        shotgun := !smg && rolls.shotgun == 0,
        sniper := rolls.sniper == 0)
  }

  /** The soldier carries no armour and no weapon. */
  predicate Unarmed(s: Soldier)
  {
    !s.helmet && !s.smallShield && !s.bigShield && !s.pistol && !s.magnum
    && !s.grenade && !s.smg && !s.shotgun && !s.sniper
  }

  /** Every loadout item is one `Spawn` can hand out: the exclusions are all it enforces. */
  lemma SpawnReachesLoadouts(elite: bool, shield0: int, cvar: real, want: Soldier)
    requires !(want.smallShield && want.bigShield) && !(want.pistol && want.magnum) && !(want.smg && want.shotgun)
    ensures
      var rolls := Rolls(1,
                         if want.helmet then 0 else 1,
                         if want.smallShield then 0 else 1,
                         if want.bigShield then 0 else 1,
                         if want.pistol then 0 else 1,
                         if want.magnum then 0 else 1,
                         if want.grenade then 0 else 1,
                         if want.smg then 0 else 1,
                         if want.shotgun then 0 else 1,
                         if want.sniper then 0 else 1);
      var s := Spawn(elite, shield0, false, cvar, rolls);
      !s.invisible && s == want.(elite := elite, invisible := false, shield := s.shield)
  {
  }

  /** The multiplier a hit gets and the soldier after it. */
  datatype Hitgroup = Hitgroup(multiplier: real, soldier: Soldier)

  /** Damage the shield stops. */
  const ShieldStops: set<DamageKind> := {Bullet, Buckshot, Blast}

  /** The shield is up and the damage is of a kind it stops. */
  predicate Absorbs(s: Soldier, types: set<DamageKind>)
  {
    (s.elite || s.invisible) && s.shield > 0 && AnyOf(types, ShieldStops)
  }

  /**
   * `GetHitgroupDamageMultiplier`: a raised shield swallows bullet,
   * buckshot and blast damage whole, losing that much strength (the int
   * field truncates the float result); everything else gets the base
   * class's multiplier and leaves the soldier as it was.
   */
  function HitgroupMultiplier(s: Soldier, types: set<DamageKind>, damage: real, base: real): (r: Hitgroup)
    ensures Absorbs(s, types) ==> r.multiplier == 0.0 && r.soldier == s.(shield := Trunc(s.shield as real - damage))
    ensures !Absorbs(s, types) ==> r == Hitgroup(base, s)
    ensures damage > 0.0 && Absorbs(s, types) ==> r.soldier.shield < s.shield
  {
    if Absorbs(s, types) then Hitgroup(0.0, s.(shield := Trunc(s.shield as real - damage)))
    else Hitgroup(base, s)
  }

  /** The shield after a run of hits, each of at least one point. */
  function Barrage(s: Soldier, types: set<DamageKind>, hits: nat, damage: real): (r: Soldier)
    requires damage >= 1.0
    decreases hits
  {
    if hits == 0 then s
    else Barrage(HitgroupMultiplier(s, types, damage, 1.0).soldier, types, hits - 1, damage)
  }

  /** Hits the shield does not absorb change nothing. */
  lemma {:induction false} BarrageIdle(s: Soldier, types: set<DamageKind>, hits: nat, damage: real)
    requires damage >= 1.0 && !Absorbs(s, types)
    ensures Barrage(s, types, hits, damage) == s
    decreases hits
  {
    if hits > 0 {
      BarrageIdle(s, types, hits - 1, damage);
    }
  }

  /**
   * A shield of strength at most n stops at most n hits of at least one
   * point: after that many hits it is down and the next one goes through.
   */
  lemma {:induction false} ShieldBreaks(s: Soldier, types: set<DamageKind>, damage: real, hits: nat)
    requires damage >= 1.0 && s.shield <= hits
    ensures !Absorbs(Barrage(s, types, hits, damage), types)
    decreases hits
  {
    if !Absorbs(s, types) {
      BarrageIdle(s, types, hits, damage);
    } else {
      var next := HitgroupMultiplier(s, types, damage, 1.0).soldier;
      assert next.shield <= s.shield - 1;
      ShieldBreaks(next, types, damage, hits - 1);
    }
  }

  /** What a hit carries, for `IsHeavyDamage`. */
  datatype Hurt = Hurt(ammoType: int, types: set<DamageKind>, damage: real)

  /**
   * `IsHeavyDamage`: AR2 and 357 rounds, a buckshot blast of at least half
   * the full pellet damage (truncated to an int), and episodic rollermine
   * shocks are heavy; anything else is as the base class decides.
   */
  function IsHeavyDamage(h: Hurt, ar2: int, magnum: int, perPellet: real, pellets: int, episodic: bool, base: bool): (r: bool)
    ensures r <==>
              || h.ammoType == ar2 || h.ammoType == magnum
              || (Buckshot in h.types && h.damage >= Trunc(perPellet * pellets as real * 0.5) as real)
              || (Shock in h.types && episodic)
              || base
  {
    AnyOfSingle(h.types, Buckshot);
    AnyOfSingle(h.types, Shock);
    if h.ammoType == ar2 then true
    else if h.ammoType == magnum then true
    else if AnyOf(h.types, {Buckshot}) && h.damage >= Trunc(perPellet * pellets as real * 0.5) as real then true
    else if AnyOf(h.types, {Shock}) && episodic then true
    else base
  }

  /** The truncated half-maximum is never above the exact half: a blast at exactly half is heavy. */
  lemma HalfPelletsHeavy(ar2: int, magnum: int, ammo: int, perPellet: real, pellets: int, episodic: bool)
    requires perPellet * pellets as real >= 0.0
    ensures IsHeavyDamage(Hurt(ammo, {Buckshot}, perPellet * pellets as real * 0.5), ar2, magnum, perPellet, pellets, episodic, false)
  {
  }

  /** The AI conditions the soldier's own code reads or writes. */
  datatype Condition = CanRangeAttack2 | HearDanger | HearPhysicsDanger | OtherCondition(id: nat)

  /**
   * `ClearAttackConditions`: the base class clears what it clears (its
   * result is an input); the grenade condition is put back if it was set.
   */
  function ClearAttackConditions(before: set<Condition>, afterBase: set<Condition>): (r: set<Condition>)
    ensures CanRangeAttack2 in r <==> CanRangeAttack2 in before || CanRangeAttack2 in afterBase
    ensures r - {CanRangeAttack2} == afterBase - {CanRangeAttack2}
  {
    if CanRangeAttack2 in before then afterBase + {CanRangeAttack2} else afterBase
  }

  /**
   * `OnListened`: after the base class, a physics-danger sound is dropped
   * when a danger sound is also heard and danger interrupts the schedule.
   */
  function OnListened(afterBase: set<Condition>, interrupts: set<Condition>): (r: set<Condition>)
    ensures r <= afterBase
    ensures afterBase - r <= {HearPhysicsDanger}
    ensures HearPhysicsDanger !in r <==>
              HearPhysicsDanger !in afterBase || (HearDanger in afterBase && HearDanger in interrupts)
  {
    if HearDanger in afterBase && HearPhysicsDanger in afterBase && HearDanger in interrupts then
      afterBase - {HearPhysicsDanger}
    else afterBase
  }

  /** The weapons a soldier can carry and drop. */
  datatype Gun = PistolGun | SmgGun | ShotgunGun | SniperGun | MagnumGun

  /**
   * The items `Event_Killed` drops without a random draw: the AR2 grenade
   * ammo, a frag, a battery, a health vial or kit, and the held weapons.
   * A weapon dropped in nag mode is that mode's variant (`nagName`): the
   * pistolet, rifle, blunderbuss and musket.
   */
  datatype Item = SmgGrenade | Frag | Battery | HealthVial | HealthKit | Weapon(gun: Gun, nagName: bool)

  datatype Death = Death(drops: seq<Item>, burst: bool, stickyGibs: bool)

  /** The soldier carries this weapon. */
  predicate Holds(s: Soldier, g: Gun)
  {
    match g
    case PistolGun => s.pistol
    case SmgGun => s.smg
    case ShotgunGun => s.shotgun
    case SniperGun => s.sniper
    case MagnumGun => s.magnum
  }

  /** How many times an item is dropped under a condition that drops it once. */
  function Once(b: bool): nat
  {
    if b then 1 else 0
  }

  /** `xs` when `b` holds, else nothing. */
  function When(b: bool, xs: seq<Item>): seq<Item>
  {
    if b then xs else []
  }

  /**
   * How often `Event_Killed` drops each item, random drops aside: a
   * player's kill (or one by a vehicle the player drives) brings the AR2
   * grenade ammo outside nag mode when the active weapon is the AR2, a frag
   * when the game rules ask for one, a battery and a vial from an elite or
   * invisible soldier, and every held weapon in the mode's variant, except
   * the 357 in nag mode; whoever the killer, a helmet leaves a vial and a
   * big shield a kit and a battery.
   */
  function Dropped(s: Soldier, byPlayer: bool, nag: bool, ar2Active: bool, grenadeWanted: bool, it: Item): nat
  {
    var shielded := byPlayer && (s.elite || s.invisible);
    match it
    case Battery => Once(shielded) + Once(s.bigShield)
    case HealthVial => Once(shielded) + Once(s.helmet)
    case HealthKit => Once(s.bigShield)
    case SmgGrenade => Once(byPlayer && !nag && ar2Active)
    case Frag => Once(byPlayer && grenadeWanted)
    case Weapon(g, n) => Once(byPlayer && n == nag && Holds(s, g) && !(nag && g == MagnumGun))
  }

  /** The weapons a player's kill makes the soldier drop, in source order. */
  function WeaponDrops(s: Soldier, nag: bool): seq<Item>
  {
    When(s.pistol, [Weapon(PistolGun, nag)]) + When(s.smg, [Weapon(SmgGun, nag)])
    + When(s.shotgun, [Weapon(ShotgunGun, nag)]) + When(s.sniper, [Weapon(SniperGun, nag)])
    + When(s.magnum && !nag, [Weapon(MagnumGun, nag)])
  }

  /** What a player's kill adds: supplies, then weapons. */
  function KillerDrops(s: Soldier, nag: bool, ar2Active: bool, grenadeWanted: bool): seq<Item>
  {
    Supplies(s, nag, ar2Active, grenadeWanted) + WeaponDrops(s, nag)
  }

  /** The ammo, frag, battery and vial a player's kill brings. */
  function Supplies(s: Soldier, nag: bool, ar2Active: bool, grenadeWanted: bool): seq<Item>
  {
    When(!nag && ar2Active, [SmgGrenade]) + When(grenadeWanted, [Frag]) + When(s.elite || s.invisible, [Battery, HealthVial])
  }

  /** What the armour leaves, whoever the killer. */
  function ArmourDrops(s: Soldier): seq<Item>
  {
    When(s.helmet, [HealthVial]) + When(s.bigShield, [HealthKit, Battery])
  }

  /**
   * `Event_Killed`, without its random drops: nothing at all when health
   * spawning is off or the player has the mega phys-cannon; otherwise each
   * item as often as `Dropped` counts it, and a non-elite at -90 health or
   * less bursts under blast, vehicle, fall or crush damage.
   */
  function Killed(s: Soldier, health: int, types: set<DamageKind>, spawnHealth: bool, megaCannon: bool,
                  byPlayer: bool, nag: bool, ar2Active: bool, grenadeWanted: bool): (d: Death)
    ensures !spawnHealth || megaCannon ==> d == Death([], false, false)
    ensures spawnHealth && !megaCannon ==>
              && (forall it :: multiset(d.drops)[it] == Dropped(s, byPlayer, nag, ar2Active, grenadeWanted, it))
              && (d.burst <==> !s.elite && health <= GoreHealth && AnyOf(types, {Blast, Vehicle, Fall, Crush}))
              && (d.stickyGibs <==> AnyOf(types, {Slash, Crush, Club}))
  {
    if !spawnHealth || megaCannon then Death([], false, false)
    else
      var drops := When(byPlayer, KillerDrops(s, nag, ar2Active, grenadeWanted)) + ArmourDrops(s);
      DropCounts(s, byPlayer, nag, ar2Active, grenadeWanted, drops);
      Death(drops,
            !s.elite && health <= GoreHealth && AnyOf(types, {Blast, Vehicle, Fall, Crush}),
            AnyOf(types, {Slash, Crush, Club}))
  }

  lemma DropCounts(s: Soldier, byPlayer: bool, nag: bool, ar2Active: bool, grenadeWanted: bool, drops: seq<Item>)
    requires drops == When(byPlayer, KillerDrops(s, nag, ar2Active, grenadeWanted)) + ArmourDrops(s)
    ensures forall it :: multiset(drops)[it] == Dropped(s, byPlayer, nag, ar2Active, grenadeWanted, it)
  {
    forall it
      ensures multiset(drops)[it] == Dropped(s, byPlayer, nag, ar2Active, grenadeWanted, it)
    {
      DropSum(s, byPlayer, nag, ar2Active, grenadeWanted, it);
      KillerCount(s, nag, ar2Active, grenadeWanted, it);
      ArmourCount(s, it);
      DroppedSum(s, byPlayer, nag, ar2Active, grenadeWanted, it);
    }
  }

  lemma DropSum(s: Soldier, byPlayer: bool, nag: bool, ar2Active: bool, grenadeWanted: bool, it: Item)
    ensures multiset(When(byPlayer, KillerDrops(s, nag, ar2Active, grenadeWanted)) + ArmourDrops(s))[it]
            == (if byPlayer then multiset(KillerDrops(s, nag, ar2Active, grenadeWanted))[it] else 0)
               + multiset(ArmourDrops(s))[it]
  {
    SplitCount(When(byPlayer, KillerDrops(s, nag, ar2Active, grenadeWanted)), ArmourDrops(s), it);
  }

  /** The three groups' counts add up to the table. */
  lemma DroppedSum(s: Soldier, byPlayer: bool, nag: bool, ar2Active: bool, grenadeWanted: bool, it: Item)
    ensures Dropped(s, byPlayer, nag, ar2Active, grenadeWanted, it)
            == (if byPlayer then KillerShare(s, nag, ar2Active, grenadeWanted, it) else 0) + ArmourShare(s, it)
  {
  }

  /** The count `KillerCount` gives. */
  function KillerShare(s: Soldier, nag: bool, ar2Active: bool, grenadeWanted: bool, it: Item): nat
  {
    Once(!nag && ar2Active && it == SmgGrenade) + Once(grenadeWanted && it == Frag)
    + Once((s.elite || s.invisible) && it == Battery) + Once((s.elite || s.invisible) && it == HealthVial)
    + (if it.Weapon? then Once(it.nagName == nag && Holds(s, it.gun) && !(nag && it.gun == MagnumGun)) else 0)
  }

  /** The count `ArmourCount` gives. */
  function ArmourShare(s: Soldier, it: Item): nat
  {
    Once(s.helmet && it == HealthVial) + Once(s.bigShield && it == HealthKit) + Once(s.bigShield && it == Battery)
  }

  lemma SplitCount(xs: seq<Item>, ys: seq<Item>, it: Item)
    ensures multiset(xs + ys)[it] == multiset(xs)[it] + multiset(ys)[it]
  {
  }

  lemma WhenOne(b: bool, x: Item, it: Item)
    ensures multiset(When(b, [x]))[it] == Once(b && it == x)
  {
  }

  lemma WhenTwo(b: bool, x: Item, y: Item, it: Item)
    ensures multiset(When(b, [x, y]))[it] == Once(b && it == x) + Once(b && it == y)
  {
    assert [x, y] == [x] + [y];
  }

  lemma ArmourCount(s: Soldier, it: Item)
    ensures multiset(ArmourDrops(s))[it] == ArmourShare(s, it)
  {
    WhenOne(s.helmet, HealthVial, it);
    WhenTwo(s.bigShield, HealthKit, Battery, it);
  }

  lemma KillerCount(s: Soldier, nag: bool, ar2Active: bool, grenadeWanted: bool, it: Item)
    ensures multiset(KillerDrops(s, nag, ar2Active, grenadeWanted))[it] == KillerShare(s, nag, ar2Active, grenadeWanted, it)
  {
    SplitCount(Supplies(s, nag, ar2Active, grenadeWanted), WeaponDrops(s, nag), it);
    SupplyCount(s, nag, ar2Active, grenadeWanted, it);
    WeaponCount(s, nag, it);
  }

  lemma SupplyCount(s: Soldier, nag: bool, ar2Active: bool, grenadeWanted: bool, it: Item)
    ensures multiset(Supplies(s, nag, ar2Active, grenadeWanted))[it]
            == Once(!nag && ar2Active && it == SmgGrenade) + Once(grenadeWanted && it == Frag)
               + Once((s.elite || s.invisible) && it == Battery) + Once((s.elite || s.invisible) && it == HealthVial)
  {
    var a, b, c := When(!nag && ar2Active, [SmgGrenade]), When(grenadeWanted, [Frag]),
                   When(s.elite || s.invisible, [Battery, HealthVial]);
    SplitCount(a, b, it);
    SplitCount(a + b, c, it);
    WhenOne(!nag && ar2Active, SmgGrenade, it);
    WhenOne(grenadeWanted, Frag, it);
    WhenTwo(s.elite || s.invisible, Battery, HealthVial, it);
  }

  /** The weapon drops hold each held weapon once, in the mode's variant, and no 357 in nag mode. */
  lemma WeaponCount(s: Soldier, nag: bool, it: Item)
    ensures multiset(WeaponDrops(s, nag))[it]
            == if it.Weapon? then Once(it.nagName == nag && Holds(s, it.gun) && !(nag && it.gun == MagnumGun)) else 0
  {
    WeaponSum(s, nag, it);
    HeldOnce(s, nag, it);
  }

  lemma WeaponSum(s: Soldier, nag: bool, it: Item)
    ensures multiset(WeaponDrops(s, nag))[it]
            == Once(s.pistol && it == Weapon(PistolGun, nag)) + Once(s.smg && it == Weapon(SmgGun, nag))
               + Once(s.shotgun && it == Weapon(ShotgunGun, nag)) + Once(s.sniper && it == Weapon(SniperGun, nag))
               + Once(s.magnum && !nag && it == Weapon(MagnumGun, nag))
  {
    PiecesCount(s.pistol, s.smg, s.shotgun, s.sniper, s.magnum && !nag,
                Weapon(PistolGun, nag), Weapon(SmgGun, nag), Weapon(ShotgunGun, nag), Weapon(SniperGun, nag),
                Weapon(MagnumGun, nag), it);
  }

  /** Naming each weapon piece once is the same as asking whether the soldier holds the item's weapon. */
  lemma HeldOnce(s: Soldier, nag: bool, it: Item)
    ensures Once(s.pistol && it == Weapon(PistolGun, nag)) + Once(s.smg && it == Weapon(SmgGun, nag))
            + Once(s.shotgun && it == Weapon(ShotgunGun, nag)) + Once(s.sniper && it == Weapon(SniperGun, nag))
            + Once(s.magnum && !nag && it == Weapon(MagnumGun, nag))
            == if it.Weapon? then Once(it.nagName == nag && Holds(s, it.gun) && !(nag && it.gun == MagnumGun)) else 0
  {
    match it
    case Weapon(g, n) =>
      match g {
        case PistolGun =>
        case SmgGun =>
        case ShotgunGun =>
        case SniperGun =>
        case MagnumGun =>
      }
    case _ =>
  }

  /** Five optional single items hold each item as often as it is named by a piece that is present. */
  lemma PiecesCount(p: bool, q: bool, r: bool, t: bool, u: bool, a: Item, b: Item, c: Item, d: Item, e: Item, it: Item)
    ensures multiset(When(p, [a]) + When(q, [b]) + When(r, [c]) + When(t, [d]) + When(u, [e]))[it]
            == Once(p && it == a) + Once(q && it == b) + Once(r && it == c) + Once(t && it == d) + Once(u && it == e)
  {
    WhenOne(p, a, it);
    WhenOne(q, b, it);
    WhenOne(r, c, it);
    WhenOne(t, d, it);
    WhenOne(u, e, it);
  }

  /**
   * A soldier that spawned invisible carries nothing, so a player's kill
   * outside nag mode leaves exactly the shield's battery and vial, besides
   * the AR2 ammo and frag the active weapon and the game rules call for.
   */
  lemma InvisibleLeavesShieldDrops(elite: bool, shield0: int, cvar: real, rolls: Rolls, health: int,
                                   types: set<DamageKind>, ar2Active: bool, grenadeWanted: bool)
    requires rolls.invisible == 0
    ensures var s := Spawn(elite, shield0, false, cvar, rolls);
            var d := Killed(s, health, types, true, false, true, false, ar2Active, grenadeWanted);
            multiset(d.drops) == ShieldDrops(ar2Active, grenadeWanted)
  {
    var s := Spawn(elite, shield0, false, cvar, rolls);
    var d := Killed(s, health, types, true, false, true, false, ar2Active, grenadeWanted);
    forall it
      ensures multiset(d.drops)[it] == ShieldDrops(ar2Active, grenadeWanted)[it]
    {
      UnarmedTable(s, ar2Active, grenadeWanted, it);
    }
    assert multiset(d.drops) == ShieldDrops(ar2Active, grenadeWanted);
  }

  /** The battery and vial, with the AR2 ammo and frag when called for. */
  function ShieldDrops(ar2Active: bool, grenadeWanted: bool): multiset<Item>
  {
    multiset{Battery, HealthVial}
    + (if ar2Active then multiset{SmgGrenade} else multiset{})
    + (if grenadeWanted then multiset{Frag} else multiset{})
  }

  lemma UnarmedTable(s: Soldier, ar2Active: bool, grenadeWanted: bool, it: Item)
    requires s.invisible && Unarmed(s)
    ensures Dropped(s, true, false, ar2Active, grenadeWanted, it) == ShieldDrops(ar2Active, grenadeWanted)[it]
  {
    if it.Weapon? {
      assert !Holds(s, it.gun);
    }
  }

  /** Killed by anything but the player, a soldier drops only what its armour leaves. */
  lemma OthersFindOnlyArmourDrops(s: Soldier, health: int, types: set<DamageKind>, nag: bool,
                                  ar2Active: bool, grenadeWanted: bool)
    ensures var d := Killed(s, health, types, true, false, false, nag, ar2Active, grenadeWanted);
            && (forall it :: it in d.drops ==> it in {HealthVial, HealthKit, Battery})
            && multiset(d.drops)[HealthVial] == Once(s.helmet)
            && multiset(d.drops)[HealthKit] == multiset(d.drops)[Battery] == Once(s.bigShield)
  {
    var d := Killed(s, health, types, true, false, false, nag, ar2Active, grenadeWanted);
    forall it | it in d.drops
      ensures it in {HealthVial, HealthKit, Battery}
    {
      assert multiset(d.drops)[it] == Dropped(s, false, nag, ar2Active, grenadeWanted, it);
    }
  }
}
