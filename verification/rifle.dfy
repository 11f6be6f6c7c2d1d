/**
 * The rifle (`weapon_rifle.cpp`): a reload that does not hold up the
 * secondary timer, the pump that ends a reload, a secondary attack that
 * does nothing.  Forced NPC fire is `Weapons.ForceNpcFire`.
 */
module Rifle {
  import opened Weapons

  /** `m_bNeedPump` and the refire timers. */
  datatype Rifle = Rifle(needPump: bool, timers: Timers)

  /** `Reload`: as the sniper rifle's, without the zoom. */
  function Reload(w: Rifle, ok: bool, afterBase: Timers): (r: (Rifle, bool))
    ensures r.1 == ok && r.0.needPump == w.needPump
    ensures ok ==> r.0.timers.nextSecondary == w.timers.nextSecondary && r.0.timers.ownerNextAttack == w.timers.nextSecondary
    ensures ok ==> r.0.timers.nextPrimary == afterBase.nextPrimary
    ensures !ok ==> r.0.timers == afterBase
  {
    (w.(timers := RestoreAfterReload(w.timers, ok, afterBase)), ok)
  }

  /**
   * `Pump`: with an owner, the pump is no longer needed and both the owner
   * and the primary attack wait for the pump animation (`duration`).
   */
  function Pump(w: Rifle, hasOwner: bool, now: real, duration: real): (r: Rifle)
    ensures !hasOwner ==> r == w
    ensures hasOwner ==> && !r.needPump
                         && r.timers.ownerNextAttack == r.timers.nextPrimary == now + duration
                         && r.timers.nextSecondary == w.timers.nextSecondary
  {
    if !hasOwner then w
    else
      var t := w.timers.(ownerNextAttack := now + duration);
      w.(needPump := false, timers := t.(nextPrimary := now + duration))
  }

  /** Pumping again in the same frame changes nothing more. */
  lemma PumpIdempotent(w: Rifle, hasOwner: bool, now: real, duration: real)
    ensures Pump(Pump(w, hasOwner, now, duration), hasOwner, now, duration) == Pump(w, hasOwner, now, duration)
  {
  }

  /** `SecondaryAttack` is empty: the weapon is left as it was. */
  function SecondaryAttack(w: Rifle): (r: Rifle)
    ensures r == w
  {
    w
  }
}
