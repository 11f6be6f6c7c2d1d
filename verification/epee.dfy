/**
 * The épée (`weapon_epee.cpp`): a player's thrust on attack, a hauled-back
 * swing on attack2 that lands once its animation has played, the NPC
 * melee-range decision that leads a moving enemy, and the damage per hit.
 */
module Epee {
  import opened Geometry
  import opened Numeric

  /** `EPEE_RANGE`. */
  const Range: real := 75.0
  /** The thrust may start this long before the refire time. */
  const ThrustGrace: real := 0.2
  /** Below this facing dot (now and extrapolated) the NPC is not facing. */
  const FacingDot: real := 0.7
  /** Default of `sk_epee_lead_time`. */
  const DefaultLeadTime: real := 0.8

  /** The weapon's timers: a pending swing and when it lands. */
  datatype Epee = Epee(delayed: bool, delayedTime: real, nextPrimary: real)

  /** The player's buttons in this frame. */
  datatype Buttons = Buttons(attack: bool, attack2: bool)

  /**
   * A frame's effect: the weapon afterwards, and which base attacks ran
   * (`thrust`: `PrimaryAttack`; `swing`: the delayed `SecondaryAttack`).
   */
  datatype Frame = Frame(epee: Epee, thrust: bool, hauled: bool, swing: bool)

  /** The constructor's state. */
  const Fresh: Epee := Epee(false, 0.0, 0.0)

  /**
   * `DelayedAttack`: the pending swing lands once the current time is
   * strictly past its time, and is then cleared.  `swingNext` is the
   * refire time the base class's swing leaves.
   */
  function DelayedAttack(e: Epee, now: real, swingNext: real): (r: Frame)
    ensures r.swing <==> e.delayed && now > e.delayedTime
    ensures r.swing ==> r.epee == Epee(false, e.delayedTime, swingNext)
    ensures !r.swing ==> r.epee == e
    ensures !r.thrust && !r.hauled
  {
    if e.delayed && now > e.delayedTime then Frame(e.(delayed := false, nextPrimary := swingNext), false, false, true)
    else Frame(e, false, false, false)
  }

  /** The thrust branch of `ItemPostFrame` is taken. */
  predicate ThrustReady(e: Epee, b: Buttons, now: real)
  {
    b.attack && e.nextPrimary - ThrustGrace <= now && !e.delayed
  }

  /**
   * `ItemPostFrame` for a player owner (there is nothing to do without
   * one): a thrust when attack is held within 0.2 s of the refire time,
   * else a haul-back when attack2 is held at the refire time, neither while
   * a swing is pending; then the pending swing may land.  `thrustNext` and
   * `swingNext` are the refire times the base class's thrust and swing
   * leave; `duration` is the haul-back animation's length.
   */
  function ItemPostFrame(e: Epee, hasPlayer: bool, b: Buttons, now: real, duration: real,
                         thrustNext: real, swingNext: real): (r: Frame)
    ensures !hasPlayer ==> r == Frame(e, false, false, false)
    ensures r.thrust <==> hasPlayer && ThrustReady(e, b, now)
    ensures r.hauled <==> hasPlayer && !ThrustReady(e, b, now) && b.attack2 && e.nextPrimary <= now && !e.delayed
    ensures r.hauled ==> r.epee.delayedTime == now + duration
    ensures r.hauled && duration >= 0.0 ==> r.epee.delayed && !r.swing
    ensures r.swing <==> hasPlayer && ((e.delayed && now > e.delayedTime) || (r.hauled && duration < 0.0))
    ensures r.swing ==> !r.epee.delayed && r.epee.nextPrimary == swingNext
    ensures r.thrust ==> r.epee == e.(nextPrimary := thrustNext)
    ensures !r.thrust && !r.hauled && !r.swing ==> r.epee == e
  {
    if !hasPlayer then Frame(e, false, false, false)
    else if ThrustReady(e, b, now) then
      var d := DelayedAttack(e.(nextPrimary := thrustNext), now, swingNext);
      Frame(d.epee, true, false, d.swing)
    else if b.attack2 && e.nextPrimary <= now && !e.delayed then
      var d := DelayedAttack(e.(delayedTime := now + duration, delayed := true), now, swingNext);
      Frame(d.epee, false, true, d.swing)
    else DelayedAttack(e, now, swingNext)
  }

  /** One frame's inputs. */
  datatype Tick = Tick(hasPlayer: bool, buttons: Buttons, now: real, duration: real, thrustNext: real, swingNext: real)

  /** The weapon after a run of frames, with how many haul-backs and swings happened. */
  function Frames(e: Epee, ticks: seq<Tick>): (r: (Epee, nat, nat))
    decreases |ticks|
  {
    if ticks == [] then (e, 0, 0)
    else
      var t := ticks[0];
      var f := ItemPostFrame(e, t.hasPlayer, t.buttons, t.now, t.duration, t.thrustNext, t.swingNext);
      var rest := Frames(f.epee, ticks[1..]);
      (rest.0, rest.1 + (if f.hauled then 1 else 0), rest.2 + (if f.swing then 1 else 0))
  }

  /**
   * Every swing that lands was hauled back first: over any run of frames
   * there are never more swings than haul-backs (plus one if a swing was
   * already pending), and a swing is pending at the end exactly when the
   * count leaves one over.
   */
  lemma {:induction false} SwingsFollowHaulBacks(e: Epee, ticks: seq<Tick>)
    ensures var (last, hauled, swings) := Frames(e, ticks);
            swings + (if last.delayed then 1 else 0) == hauled + (if e.delayed then 1 else 0)
    decreases |ticks|
  {
    if ticks != [] {
      var t := ticks[0];
      var f := ItemPostFrame(e, t.hasPlayer, t.buttons, t.now, t.duration, t.thrustNext, t.swingNext);
      SwingsFollowHaulBacks(f.epee, ticks[1..]);
    }
  }

  /** The conditions `WeaponMeleeAttack1Condition` reports. */
  datatype Condition = NoCondition | TooFarToAttack | NotFacingAttack | CanMeleeAttack1

  /** The lead time: the setting plus its random jitter, never negative. */
  function LeadTime(lead: real, jitter: real): (dt: real)
    ensures dt >= 0.0
    ensures lead + jitter >= 0.0 ==> dt == lead + jitter
    ensures lead + jitter < 0.0 ==> dt == 0.0
  {
    if lead + jitter < 0.0 then 0.0 else lead + jitter
  }

  /** The enemy's extrapolated centre relative to the NPC's. */
  function LeadDelta(enemyCenter: Vec3, enemyVelocity: Vec3, npcCenter: Vec3, dt: real): Vec3
  {
    Sub(Add(enemyCenter, Scale(enemyVelocity, dt)), npcCenter)
  }

  /** The enemy's extrapolated flat distance (`Vector2DNormalize`'s result). */
  function LedDist(norm: Vec3 -> real, delta: Vec3): real
  {
    norm(Flat(delta))
  }

  /** The facing dot towards the enemy's extrapolated flat position. */
  function LedDot(norm: Vec3 -> real, delta: Vec3, forward: Vec3): real
    requires IsNorm(norm)
  {
    Dot(Normalize(norm, Flat(delta)), Flat(forward))
  }

  /**
   * `WeaponMeleeAttack1Condition` for an NPC owner: no enemy gives none;
   * the enemy is led by the lead time along its velocity; more than 75
   * above or below, or beyond 75 both now and when led, is too far; facing
   * away both now and when led is not facing; otherwise the NPC can
   * attack.  `dist` and `dot` are the caller's current distance and facing.
   */
  function MeleeCondition(norm: Vec3 -> real, hasEnemy: bool, enemyCenter: Vec3, enemyVelocity: Vec3,
                          npcCenter: Vec3, forward: Vec3, lead: real, jitter: real,
                          dot: real, dist: real): (c: Condition)
    requires IsNorm(norm)
    ensures !hasEnemy <==> c == NoCondition
    ensures hasEnemy ==>
              var delta := LeadDelta(enemyCenter, enemyVelocity, npcCenter, LeadTime(lead, jitter));
              var inRange := -Range <= delta.z <= Range && (dist <= Range || LedDist(norm, delta) <= Range);
              var facing := dot >= FacingDot || LedDot(norm, delta, forward) >= FacingDot;
              && (c == TooFarToAttack <==> !inRange)
              && (c == NotFacingAttack <==> inRange && !facing)
              && (c == CanMeleeAttack1 <==> inRange && facing)
  {
    if !hasEnemy then NoCondition
    else
      var delta := LeadDelta(enemyCenter, enemyVelocity, npcCenter, LeadTime(lead, jitter));
      if Fabs(delta.z) > Range then TooFarToAttack
      else
        var flat := Flat(delta);
        var ledDist := norm(flat);
        if dist > Range && ledDist > Range then TooFarToAttack
        else
          var ledDot := Dot(Normalize(norm, flat), Flat(forward));
          if dot < FacingDot && ledDot < FacingDot then NotFacingAttack
          else CanMeleeAttack1
  }

  /**
   * Range decides before facing, and nearness only helps: an enemy no
   * higher or lower, no farther now and no farther when led than one that
   * is in range is in range too.
   */
  lemma NearerNeverTooFar(norm: Vec3 -> real, e1: Vec3, v1: Vec3, e2: Vec3, v2: Vec3, npcCenter: Vec3,
                          forward: Vec3, lead: real, jitter: real, dot1: real, dist1: real, dot2: real, dist2: real)
    requires IsNorm(norm)
    requires var dt := LeadTime(lead, jitter);
             var d1, d2 := LeadDelta(e1, v1, npcCenter, dt), LeadDelta(e2, v2, npcCenter, dt);
             && Fabs(d1.z) <= Fabs(d2.z) && dist1 <= dist2 && LedDist(norm, d1) <= LedDist(norm, d2)
    requires MeleeCondition(norm, true, e2, v2, npcCenter, forward, lead, jitter, dot2, dist2) != TooFarToAttack
    ensures MeleeCondition(norm, true, e1, v1, npcCenter, forward, lead, jitter, dot1, dist1) != TooFarToAttack
  {
  }

  /** Facing the enemy more squarely never loses an attack the NPC already has. */
  lemma SquarerFacingKeepsAttack(norm: Vec3 -> real, enemyCenter: Vec3, enemyVelocity: Vec3, npcCenter: Vec3,
                                 forward: Vec3, lead: real, jitter: real, dot: real, dot2: real, dist: real)
    requires IsNorm(norm)
    requires dot <= dot2
    requires MeleeCondition(norm, true, enemyCenter, enemyVelocity, npcCenter, forward, lead, jitter, dot, dist) == CanMeleeAttack1
    ensures MeleeCondition(norm, true, enemyCenter, enemyVelocity, npcCenter, forward, lead, jitter, dot2, dist) == CanMeleeAttack1
  {
  }

  /** A motionless enemy gets the same answer whatever the lead time and its random jitter. */
  lemma StillEnemyIgnoresJitter(norm: Vec3 -> real, hasEnemy: bool, enemyCenter: Vec3, npcCenter: Vec3, forward: Vec3,
                                lead: real, jitter: real, lead2: real, jitter2: real, dot: real, dist: real)
    requires IsNorm(norm)
    ensures MeleeCondition(norm, hasEnemy, enemyCenter, Zero, npcCenter, forward, lead, jitter, dot, dist)
            == MeleeCondition(norm, hasEnemy, enemyCenter, Zero, npcCenter, forward, lead2, jitter2, dot, dist)
  {
    assert LeadDelta(enemyCenter, Zero, npcCenter, LeadTime(lead, jitter))
           == LeadDelta(enemyCenter, Zero, npcCenter, LeadTime(lead2, jitter2));
  }

  /** `GetDamageForActivity`: the player setting for a player owner, else the NPC setting. */
  function DamageForActivity(playerOwner: bool, playerDamage: real, npcDamage: real): (d: real)
    ensures playerOwner ==> d == playerDamage
    ensures !playerOwner ==> d == npcDamage
  {
    if playerOwner then playerDamage else npcDamage
  }
}
