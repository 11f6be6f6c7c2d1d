/**
 * The AR2's alternate fire (`weapon_ar2.cpp`): attack2 arms a delayed
 * shot; a later frame strictly after its time launches the energy ball.
 * While a shot is armed the weapon cannot be holstered or reloaded.  With
 * the `nag` setting on, attack2 never arms anything.
 */
module Ar2 {
  import opened Weapons

  /** The shot is armed this long before it can be released. */
  const FireDelay: real := 0.5
  /** After a dry fire the secondary attack waits this long. */
  const DryFireDelay: real := 0.5
  /** After the ball the primary attack waits this long ... */
  const PrimaryRecovery: real := 0.5
  /** ... and the secondary this long. */
  const SecondaryRecovery: real := 1.0
  /** `GetWaterLevel()` of a fully submerged owner. */
  const Submerged: int := 3

  /** `m_bShotDelayed`, `m_flDelayedFire`, the two refire timers and `m_iSecondaryAttacks`. */
  datatype Ar2 = Ar2(delayed: bool, delayedFire: real, nextPrimary: real, nextSecondary: real, secondaryAttacks: nat)

  /** A frame's outcome: the weapon, the owner's `m_flNextAttack`, whether a ball was launched. */
  datatype Ball = Ball(weapon: Ar2, ownerNextAttack: real, fired: bool)

  /**
   * `DelayedAttack`: the armed flag is cleared first, even without a
   * player owner; with one, the ball is launched and the timers set
   * (`duration` is the secondary-attack animation's length, whose timer
   * the later assignment overrides).
   */
  function DelayedAttack(w: Ar2, isPlayer: bool, now: real, duration: real, ownerNextAttack: real): (r: Ball)
    ensures !r.weapon.delayed
    ensures r.fired <==> isPlayer
    ensures !isPlayer ==> r.weapon == w.(delayed := false) && r.ownerNextAttack == ownerNextAttack
    ensures isPlayer ==> && r.weapon.nextPrimary == now + PrimaryRecovery
                         && r.weapon.nextSecondary == now + SecondaryRecovery
                         && r.ownerNextAttack == now + duration
    ensures r.weapon.delayedFire == w.delayedFire && r.weapon.secondaryAttacks == w.secondaryAttacks
  {
    var cleared := w.(delayed := false);
    if !isPlayer then Ball(cleared, ownerNextAttack, false)
    else
      var animated := cleared.(nextSecondary := now + duration);
      Ball(animated.(nextPrimary := now + 0.5, nextSecondary := now + 1.0), now + duration, true)
  }

  /** The shot is due in this frame. */
  predicate Due(w: Ar2, now: real)
  {
    w.delayed && now > w.delayedFire
  }

  /** The start of `ItemPostFrame`: release the armed shot once its time has strictly passed. */
  function ItemPostFrame(w: Ar2, isPlayer: bool, now: real, duration: real, ownerNextAttack: real): (r: Ball)
    ensures r.fired <==> Due(w, now) && isPlayer
    ensures Due(w, now) ==> !r.weapon.delayed
    ensures !Due(w, now) ==> r == Ball(w, ownerNextAttack, false)
  {
    if Due(w, now) then DelayedAttack(w, isPlayer, now, duration, ownerNextAttack)
    else Ball(w, ownerNextAttack, false)
  }

  /** What `SecondaryAttack` sees of its owner. */
  datatype Owner = Owner(present: bool, isPlayer: bool, waterLevel: int, secondaryAmmo: int)

  predicate WellFormed(o: Owner)
  {
    o.isPlayer ==> o.present
  }

  /**
   * `SecondaryAttack`.  Without `nag`: nothing while armed; a dry fire
   * when the owner is submerged; otherwise the shot is armed for half a
   * second from now.  With `nag` there is no delayed shot: a player
   * without secondary ammo or under water dry-fires, and one with it
   * throws a grenade at once: the primary waits half a second, the
   * secondary a full one, and the attack is counted.
   */
  function SecondaryAttack(w: Ar2, nag: bool, o: Owner, now: real): (r: Ar2)
    requires WellFormed(o)
    ensures !nag && w.delayed ==> r == w
    ensures !nag && !w.delayed && o.present && o.waterLevel == Submerged ==> r == w.(nextSecondary := now + DryFireDelay)
    ensures !nag && !w.delayed && !(o.present && o.waterLevel == Submerged) ==>
              && r.delayed && r.delayedFire == now + FireDelay
              && r.nextPrimary == now + FireDelay && r.nextSecondary == now + FireDelay
              && r.secondaryAttacks == w.secondaryAttacks + 1
    ensures nag ==> r.delayed == w.delayed && r.delayedFire == w.delayedFire
    ensures nag && o.isPlayer && (o.secondaryAmmo <= 0 || o.waterLevel == Submerged) ==> r == w.(nextSecondary := now + DryFireDelay)
    ensures nag && o.isPlayer && o.secondaryAmmo > 0 && o.waterLevel != Submerged ==>
              && r.nextPrimary == now + PrimaryRecovery && r.nextSecondary == now + SecondaryRecovery
              && r.secondaryAttacks == w.secondaryAttacks + 1
    ensures nag && !o.isPlayer ==> r == w
  {
    if !nag then
      if w.delayed then w
      else if o.present && o.waterLevel == 3 then w.(nextSecondary := now + 0.5)
      else
        var fire := now + 0.5;
        w.(delayed := true, nextPrimary := fire, nextSecondary := fire, delayedFire := fire,
           secondaryAttacks := w.secondaryAttacks + 1)
    else if !o.isPlayer then w
    else if o.secondaryAmmo <= 0 || o.waterLevel == 3 then w.(nextSecondary := now + 0.5)
    else w.(nextPrimary := now + 0.5, nextSecondary := now + 1.0, secondaryAttacks := w.secondaryAttacks + 1)
  }

  /**
   * `CanHolster` and `Reload` share one gate: never while a shot is armed,
   * otherwise whatever the base class answers (`base`).
   */
  function Gate(w: Ar2, base: bool): (r: bool)
    ensures r <==> !w.delayed && base
  {
    if w.delayed then false else base
  }

  /**
   * An armed shot cannot be released before its half second has passed,
   * and while it waits the weapon can be neither holstered nor reloaded.
   */
  lemma ArmedShotWaits(w: Ar2, o: Owner, armedAt: real, isPlayer: bool, now: real, duration: real,
                       ownerNextAttack: real, baseHolster: bool, baseReload: bool)
    requires WellFormed(o)
    requires !w.delayed && !(o.present && o.waterLevel == Submerged)
    ensures var armed := SecondaryAttack(w, false, o, armedAt);
            && (ItemPostFrame(armed, isPlayer, now, duration, ownerNextAttack).fired ==> now > armedAt + FireDelay)
            && (now <= armedAt + FireDelay ==> ItemPostFrame(armed, isPlayer, now, duration, ownerNextAttack).weapon == armed)
            && !Gate(armed, baseHolster) && !Gate(armed, baseReload)
  {
  }

  /** Once the shot is released, holstering and reloading are up to the base class again. */
  lemma ReleaseUnblocks(w: Ar2, isPlayer: bool, now: real, duration: real, ownerNextAttack: real,
                        baseHolster: bool, baseReload: bool)
    requires Due(w, now)
    ensures var r := ItemPostFrame(w, isPlayer, now, duration, ownerNextAttack).weapon;
            Gate(r, baseHolster) == baseHolster && Gate(r, baseReload) == baseReload
  {
  }

  /** One frame of the alternate-fire machine. */
  datatype Event =
    | Attack2(nag: bool, owner: Owner, now: real)
    | PostFrame(isPlayer: bool, now: real, duration: real)

  /**
   * The weapon after a run of events, with the number of shots armed and
   * of balls launched.  Events whose owner is not well formed (a player
   * that is not the owner) cannot occur and are skipped.
   */
  function Run(w: Ar2, ownerNextAttack: real, events: seq<Event>): (r: (Ar2, nat, nat))
    decreases |events|
  {
    if events == [] then (w, 0, 0)
    else
      match events[0]
      case Attack2(nag, o, now) =>
        var w2 := if WellFormed(o) then SecondaryAttack(w, nag, o, now) else w;
        var rest := Run(w2, ownerNextAttack, events[1..]);
        (rest.0, rest.1 + (if w2.delayed && !w.delayed then 1 else 0), rest.2)
      case PostFrame(isPlayer, now, duration) =>
        var b := ItemPostFrame(w, isPlayer, now, duration, ownerNextAttack);
        var rest := Run(b.weapon, b.ownerNextAttack, events[1..]);
        (rest.0, rest.1, rest.2 + (if b.fired then 1 else 0))
  }

  /**
   * Every ball launched was armed first, one ball per arming: over any
   * run, balls plus a shot still armed at the end never exceed the
   * armings plus a shot armed at the start.
   */
  lemma {:induction false} OneBallPerArming(w: Ar2, ownerNextAttack: real, events: seq<Event>)
    ensures var (last, armed, balls) := Run(w, ownerNextAttack, events);
            balls + (if last.delayed then 1 else 0) <= armed + (if w.delayed then 1 else 0)
    decreases |events|
  {
    if events != [] {
      match events[0]
      case Attack2(nag, o, now) =>
        var w2 := if WellFormed(o) then SecondaryAttack(w, nag, o, now) else w;
        OneBallPerArming(w2, ownerNextAttack, events[1..]);
      case PostFrame(isPlayer, now, duration) =>
        var b := ItemPostFrame(w, isPlayer, now, duration, ownerNextAttack);
        OneBallPerArming(b.weapon, b.ownerNextAttack, events[1..]);
    }
  }

  /** With `nag` on throughout, no ball is ever launched from an unarmed weapon. */
  lemma {:induction false} NagNeverArms(w: Ar2, ownerNextAttack: real, events: seq<Event>)
    requires !w.delayed
    requires forall k :: 0 <= k < |events| && events[k].Attack2? ==> events[k].nag
    ensures Run(w, ownerNextAttack, events).1 == 0 && Run(w, ownerNextAttack, events).2 == 0
    ensures !Run(w, ownerNextAttack, events).0.delayed
    decreases |events|
  {
    if events != [] {
      assert forall k :: 0 <= k < |events[1..]| && events[1..][k].Attack2? ==> events[1..][k].nag by {
        forall k | 0 <= k < |events[1..]| && events[1..][k].Attack2?
          ensures events[1..][k].nag
        {
          assert events[1..][k] == events[k + 1];
        }
      }
      match events[0]
      case Attack2(nag, o, now) =>
        var w2 := if WellFormed(o) then SecondaryAttack(w, nag, o, now) else w;
        NagNeverArms(w2, ownerNextAttack, events[1..]);
      case PostFrame(isPlayer, now, duration) =>
        var b := ItemPostFrame(w, isPlayer, now, duration, ownerNextAttack);
        NagNeverArms(b.weapon, b.ownerNextAttack, events[1..]);
    }
  }
}
