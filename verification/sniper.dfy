/**
 * The sniper rifle's scope (`weapon_sniper.cpp`): attack2 toggles the zoom,
 * which is forced off while the weapon is lowered, the player sprints or
 * is on a ladder, before a reload and on holstering.  The zoom flag only
 * changes when the engine accepts the field-of-view change.
 */
module Sniper {
  import opened Weapons
  import Spread

  /** `m_bInZoom`, `m_bInReload` and the refire timers. */
  datatype Sniper = Sniper(inZoom: bool, inReload: bool, timers: Timers)

  /**
   * `ToggleZoom`: without a player owner nothing happens; otherwise the
   * zoom flips exactly when `SetFOV` succeeds (`fovOk`).
   */
  function ToggleZoom(s: Sniper, isPlayer: bool, fovOk: bool): (r: Sniper)
    ensures r.inZoom != s.inZoom <==> isPlayer && fovOk
    ensures r.inReload == s.inReload && r.timers == s.timers
  {
    if !isPlayer then s
    else if s.inZoom then (if fovOk then s.(inZoom := false) else s)
    else (if fovOk then s.(inZoom := true) else s)
  }

  /** Two accepted toggles cancel out. */
  lemma ToggleTwice(s: Sniper)
    ensures ToggleZoom(ToggleZoom(s, true, true), true, true) == s
  {
  }

  /** What `CheckZoomToggle` reads of the player. */
  datatype Input = Input(lowered: bool, sprint: bool, onLadder: bool, attack2Pressed: bool)

  /** Lowered, sprinting or on a ladder: the zoom is forced off. */
  predicate Forced(i: Input)
  {
    i.lowered || i.sprint || i.onLadder
  }

  /**
   * `CheckZoomToggle`.  The player is dereferenced unless the weapon is
   * lowered, so a missing player is only possible then.  A forced state
   * can only take the zoom off; otherwise a fresh attack2 press toggles
   * it unless the weapon is reloading.
   */
  function CheckZoomToggle(s: Sniper, isPlayer: bool, i: Input, fovOk: bool): (r: Sniper)
    requires i.lowered || isPlayer
    ensures Forced(i) ==> (r.inZoom ==> s.inZoom)
    ensures Forced(i) && isPlayer && fovOk ==> !r.inZoom
    ensures !Forced(i) ==> (r.inZoom != s.inZoom <==> i.attack2Pressed && !s.inReload && fovOk)
    ensures r.inReload == s.inReload && r.timers == s.timers
  {
    if Forced(i) then
      if s.inZoom then ToggleZoom(s, isPlayer, fovOk) else s
    else if isPlayer && i.attack2Pressed && !s.inReload then ToggleZoom(s, isPlayer, fovOk)
    else s
  }

  /**
   * `Reload`: the zoom is taken off first; then, when `DefaultReload`
   * succeeds (`ok`, leaving `afterBase`), the secondary and owner timers
   * go back to the secondary time cached on entry.
   */
  function Reload(s: Sniper, isPlayer: bool, fovOk: bool, ok: bool, afterBase: Timers): (r: (Sniper, bool))
    ensures r.1 == ok
    ensures isPlayer && fovOk ==> !r.0.inZoom
    ensures r.0.inZoom ==> s.inZoom
    ensures ok ==> r.0.timers.nextSecondary == s.timers.nextSecondary && r.0.timers.ownerNextAttack == s.timers.nextSecondary
    ensures !ok ==> r.0.timers == afterBase
  {
    var cached := s.timers;
    var unzoomed := if s.inZoom then ToggleZoom(s, isPlayer, fovOk) else s;
    (unzoomed.(timers := RestoreAfterReload(cached, ok, afterBase)), ok)
  }

  /** `Holster`: the zoom is taken off, then the base class decides (`base`). */
  function Holster(s: Sniper, isPlayer: bool, fovOk: bool, base: bool): (r: (Sniper, bool))
    ensures r.1 == base
    ensures isPlayer && fovOk ==> !r.0.inZoom
    ensures !s.inZoom ==> r.0 == s
    ensures r.0.inReload == s.inReload && r.0.timers == s.timers
  {
    (if s.inZoom then ToggleZoom(s, isPlayer, fovOk) else s, base)
  }

  /**
   * Putting the rifle away or reloading it leaves it unzoomed, so the
   * player's next shot gets the tripled cone.
   */
  lemma PutAwayWidensCone(s: Sniper, fovOk: bool, base: bool, ok: bool, afterBase: Timers,
                          cone: Spread.Cone, b: Spread.Buttons)
    requires fovOk
    ensures Spread.SniperSpread(cone, true, b, Holster(s, true, fovOk, base).0.inZoom).factor == 3
    ensures Spread.SniperSpread(cone, true, b, Reload(s, true, fovOk, ok, afterBase).0.inZoom).factor == 3
  {
  }
}
