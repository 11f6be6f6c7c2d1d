/**
 * Bookkeeping the AR2, the sniper rifle and the rifle share: the refire
 * timers a reload touches, and the clip adjustment around a forced NPC
 * shot.
 */
module Weapons {

  /**
   * The weapon's `m_flNextPrimaryAttack` and `m_flNextSecondaryAttack`,
   * and its owner's `m_flNextAttack`.
   */
  datatype Timers = Timers(nextPrimary: real, nextSecondary: real, ownerNextAttack: real)

  /**
   * The tail of the sniper's and the rifle's `Reload`: `before` are the
   * timers on entry, `ok` and `afterBase` what `DefaultReload` returned
   * and left.  A successful reload puts the secondary timer and the
   * owner's timer back to the secondary time cached on entry.
   */
  function RestoreAfterReload(before: Timers, ok: bool, afterBase: Timers): (r: Timers)
    ensures ok ==> r.nextSecondary == before.nextSecondary && r.ownerNextAttack == before.nextSecondary
    ensures r.nextPrimary == afterBase.nextPrimary
    ensures !ok ==> r == afterBase
  {
    var cached := before.nextSecondary;
    if ok then afterBase.(ownerNextAttack := cached).(nextSecondary := cached) else afterBase
  }

  /**
   * Whatever the base reload did to the secondary timer, a successful
   * reload does not delay the secondary attack, and the owner may attack
   * exactly when the secondary fire is available.
   */
  lemma ReloadKeepsSecondary(before: Timers, afterBase1: Timers, afterBase2: Timers)
    ensures RestoreAfterReload(before, true, afterBase1).nextSecondary ==
            RestoreAfterReload(before, true, afterBase2).nextSecondary
    ensures RestoreAfterReload(before, true, afterBase1).ownerNextAttack ==
            RestoreAfterReload(before, true, afterBase1).nextSecondary
  {
  }

  /** `FireNPCPrimaryAttack`'s clip bookkeeping: one round leaves the clip. */
  function NpcPrimaryFire(clip: int): (r: int)
    ensures r == clip - 1
  {
    clip - 1
  }

  /**
   * `Operator_ForceNPCFire`: the clip is topped up by one before the
   * primary shot so that the shot never empties it.  `secondary` is the
   * caller's request; `honoursSecondary` says whether the weapon fires a
   * secondary shot for it (the AR2 does, and that shot leaves the clip
   * alone; the sniper rifle and the rifle fire the primary either way).
   */
  function ForceNpcFire(clip: int, secondary: bool, honoursSecondary: bool): (r: int)
    ensures r == clip
  {
    if secondary && honoursSecondary then clip
    else NpcPrimaryFire(clip + 1)
  }
}
