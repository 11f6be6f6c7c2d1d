# Simulated bullets and weapon rules, modelled in Dafny

This project models the gameplay core of a Source-engine single-player mod.

**Simulated bullets.** `CBulletManager` (`bullet_manager.cpp`) keeps every live bullet in a list. On each tick it advances every bullet by one step:
- it runs the guards;
- it applies gravity sag and water drag;
- it traces the path;
- a miss moves the bullet on;
- a hit is resolved into an entity impact plus a ricochet, penetration, stuck or rejected outcome.

A bullet that dies during a tick is removed from the list. The manager's periodic tick is armed while the list holds bullets.

**Weapon, NPC, item and HUD rules** lifted out of the engine glue:
- the cannon's obus (damage filter, shot-down threshold, owner notification, custom detonators, homing) and the cannon's one-missile-at-a-time gating;
- the combine soldier's shield, loadout, heavy-damage test, condition tweaks and death rules;
- the armour items' damage scaling and health tiers;
- the épée's delayed swing and melee-range condition;
- the AR2's delayed alternate fire;
- the spread cones of the AR2, sniper rifle and rifle;
- the sniper's zoom and the rifle's pump;
- the suit-battery HUD's animations and bar.

## How it is modelled

**State and engine services**
- Every piece of state is an immutable datatype. Every operation is a pure function, or a method where the source loops.
- Engine services are oracle fields of `Bullets.World`, or plain parameters:
  - traces and point contents;
  - `IsInWorld`;
  - surface materials and densities;
  - ammo damage and the player test;
  - square roots, through a norm function constrained by `Geometry.IsNorm`.
- Random draws are inputs (`Bullets.Draws`, `Combine.Rolls`). So are base-class answers (`base`, `afterBase`) and animation durations.

**Numbers**
- Floats are reals.
- A float stored in an int field is truncated toward zero (`Numeric.Trunc`).
- A bullet speed can become infinite when a ricochet divides by a zero dot product. That is `Bullets.Speed.Infinite`, with the sign of the zero as an input.

**Function-local statics and sequences of calls**
- The spread cones of `GetBulletSpread` are function-local statics. Here they are an explicit `Spread.Cone` that is passed in and returned.
- Sequences of calls (`Ar2.Run`, `Epee.Frames`, `Cannon.Run`, `Battery.Feed`) chain the one-call functions. They are used to state properties that span several frames.

**Code followed where it differs from its comments or from what it suggests**
- `bHasInteracted` does not gate the ricochet decision (`bullet_manager.cpp:716`). It only blocks penetration (:786-802). The line that would set it after a hit is commented out (:808), so it keeps its constructor value.
- `m_flEntryDensity` is overwritten from the struck surface on every hit (:648). The ×0.2 after a ricochet therefore never reaches the penetration speed loss.
- On a miss the origin moves along the already-sagged direction (:297), not to the traced end point.
- The `startsolid` branch after a hit (:333) cannot be reached and is not modelled.
- `AddBullet`'s lag pre-simulation ignores the step's result (:1019-1020). The bullet is appended as pre-simulated.

## Model

| member | source | states |
|---|---|---|
| Numeric.Trunc | sp/src/game/client/hl2/hud_battery.cpp:165 | A float converted to int loses its fraction toward zero: the result is the nearest integer no farther from zero than the value. |
| Bullets.StartOrigin | sp/src/game/shared/bullet_manager.cpp:137-163 | An NPC shooter without a muzzle attachment fires from the source point unchanged. |
| Bullets.NewBullet | sp/src/game/shared/bullet_manager.cpp:95-174 | A new bullet starts at its ammo speed (current speed equals initial speed) with zero entry density. It is not stuck, has hit no one yet, and its interaction flag comes from the fire info. It ignores exactly the inflictor and the optional extra entity. |
| Bullets.RicochetChance | sp/src/game/shared/bullet_manager.cpp:645-709 | The ricochet divisor is (100 − penalty)/5 in integer arithmetic, always between 2 and 20. It is 2 for metal and vents, 10 for wood, and 20 for unlisted materials. |
| Bullets.PenetrationDepth | sp/src/game/shared/bullet_manager.cpp:645-709 | The penetration depth is the material's table depth plus damage/8. That is 1 for metal, 9 for wood and 2 for unlisted materials. It is at least 1 for non-negative damage. |
| Bullets.EndSolid | sp/src/game/shared/bullet_manager.cpp:624-839 | A hit is rejected, leaving the bullet untouched, exactly when the surface is one of the five named tool and glass surfaces. The bullet becomes stuck only on a Stuck outcome. Initial speed, ignore set, inflictor, interaction flag and last hit never change. |
| Bullets.EntityImpact | sp/src/game/shared/bullet_manager.cpp:874-954 | A stuck bullet does nothing. The entity last hit takes no second damage, and the ignore set only grows. At most one hit is produced. Its damage and force are the ammo damage and force scale times speed/initial speed. A player hit by a non-player shooter is added to the ignore list and never damaged again once there. Nothing else in the bullet changes. |
| Bullets.Resolve | sp/src/game/shared/bullet_manager.cpp:311-353 | Resolving a hit keeps the initial speed, interaction flag and inflictor, and never shrinks the ignore set. |
| Bullets.Sag | sp/src/game/shared/bullet_manager.cpp:209-213 | Gravity leaves the horizontal direction alone. The vertical direction drops exactly when the sagged speed is positive. A level bullet keeps its speed. Nothing but speed and direction changes. |
| Bullets.Soak | sp/src/game/shared/bullet_manager.cpp:235-239 | In water the speed keeps 40% of its value, out of water all of it. The in-water flag records the origin's contents. |
| Bullets.WithInflictor | sp/src/game/shared/bullet_manager.cpp:200-206 | A missing inflictor is replaced by the attacker, and nothing else changes. |
| Bullets.Step | sp/src/game/shared/bullet_manager.cpp:188-368 | A non-finite or non-positive speed, or no inflictor and no attacker, retires the bullet unchanged with no hits. A stuck bullet always dies. A surviving bullet has an inflictor. Validity, initial speed and interaction flag are kept, and the ignore set only grows. |
| BulletProperties.StepReachesTrace | sp/src/game/shared/bullet_manager.cpp:188-295 | A bullet that passes the guards, is in the world and is not stuck is traced from its origin to the sag-adjusted end point. Its outcome is the hit resolution of that trace. |
| BulletProperties.StepOutOfWorldOrStuck | sp/src/game/shared/bullet_manager.cpp:222-228 | Out of the world or already stuck, the step dies after the sag and before any trace, with no hits. |
| BulletProperties.StepMiss | sp/src/game/shared/bullet_manager.cpp:295-308 | On a miss the bullet lives with no hits and no stop-speed check. Speed becomes speed + 0.8·dir.z, then 40% of that in water. dir.z drops by 0.4 divided by the sagged speed. The origin moves by the new direction times the new speed. |
| BulletProperties.MissLandsBelowTraceEnd | sp/src/game/shared/bullet_manager.cpp:211-213 | Without water or latency, a missing bullet lands 0.4 units below the point it traced to, not on it. |
| BulletProperties.ResolveHit | sp/src/game/shared/bullet_manager.cpp:311-367 | After a hit the bullet lives exactly when it did not hit its own shooter or the sky, the surface let it ricochet or penetrate, and its speed stays above the stop speed. The entity impact's hits are the step's hits. |
| BulletProperties.NoSecondDamage | sp/src/game/shared/bullet_manager.cpp:911-914 | A second trace that hits the same entity again produces no damage. |
| BulletProperties.FullSpeedFullDamage | sp/src/game/shared/bullet_manager.cpp:916-930 | A bullet still at its initial speed deals the full ammo damage and force. |
| BulletProperties.PlayerHitOnce | sp/src/game/shared/bullet_manager.cpp:883-895 | A player hit by a non-player's bullet is never damaged by that bullet again on any later step. |
| SurfaceProperties.RicochetIff | sp/src/game/shared/bullet_manager.cpp:714-716 | A non-rejected hit ricochets exactly when the dot product is above −0.2, speed/initial speed is strictly above 0.5, and the draw in [0, divisor] is at most 1. |
| SurfaceProperties.RicochetIgnoresInteraction | sp/src/game/shared/bullet_manager.cpp:716 | Whether a bullet ricochets does not depend on its interaction flag. A bullet that has interacted never penetrates. |
| SurfaceProperties.StuckIff | sp/src/game/shared/bullet_manager.cpp:768-802 | A hit that neither is rejected nor ricochets sticks the bullet exactly when one of these holds: the exit probe starts solid; the hit fraction is 0; the probe fraction is 1; the surface is a displacement; the bullet has interacted. |
| SurfaceProperties.PenetrationSlows | sp/src/game/shared/bullet_manager.cpp:829-831 | With a positive speed modifier and a non-negative density, penetration never speeds a bullet up. |
| SurfaceProperties.EntryDensityOverwritten | sp/src/game/shared/bullet_manager.cpp:648 | The stored entry density has no effect on the outcome of a non-rejected hit. |
| SurfaceProperties.RicochetMirror | sp/src/game/shared/bullet_manager.cpp:730-764 | Without jitter, a ricochet mirrors the direction in the unit normal: the normal component flips and the length is kept. Entry density becomes 0.2 times the surface density, and the origin is the hit point plus the new direction. |
| SurfaceProperties.EdgeOnRicochetRetires | sp/src/game/shared/bullet_manager.cpp:732-741 | A ricochet off a surface the bullet meets edge-on or from behind (dot ≥ 0) leaves a speed that is not a positive finite number, so the next step retires it. |
| BulletRegistry.AddBullet | sp/src/game/shared/bullet_manager.cpp:1004-1033 | An undefined ammo type (−1) returns −1 and changes nothing. Otherwise a new entry goes at the given slot after every existing entry, and the tick is armed if the list was empty. The entry holds the bullet as given when it has no latency. With latency it holds the bullet after one pre-simulation step, and the hits returned are that step's. The entry is added even when that step reports the bullet dead. Uniqueness, validity and consistency are preserved. |
| BulletRegistry.RemoveBullet | sp/src/game/shared/bullet_manager.cpp:1040-1058 | The slot is gone afterwards and the list is shorter. With unique slots exactly the one matching entry is taken out and every other entry stays, in order. An empty list disarms the tick, and otherwise the tick is left as it was. |
| BulletRegistry.Survivors | sp/src/game/shared/bullet_manager.cpp:961-981 | Every survivor's slot is held in the list, and the survivors are still valid bullets. |
| BulletRegistry.SurvivorsInOrder | sp/src/game/shared/bullet_manager.cpp:961-981 | The survivors are exactly the entries whose own step lives, in list order, each carrying the bullet its step produced. |
| BulletRegistry.Think | sp/src/game/shared/bullet_manager.cpp:961-981 | The loop removes failing bullets while iterating. It leaves exactly the survivors, collects every hit, keeps slots unique, and re-arms the tick exactly when bullets remain. |
| BulletRegistry.SurvivorsUnique | sp/src/game/shared/bullet_manager.cpp:961-981 | Slots stay unique across a tick. |
| RegistryProperties.SurvivesIff | sp/src/game/shared/bullet_manager.cpp:961-981 | A bullet is still registered after a tick exactly when its own step said it lives. |
| Cannon.Spawned | sp/src/game/server/weapon_cannon.cpp:150-175 | A new obus has 100 health, so its auger threshold is 80. It takes damage, is not augering and remembers whether it has an owner. |
| Cannon.ShotDown | sp/src/game/server/weapon_cannon.cpp:310-333 | Being shot down starts the auger. The owner is notified exactly when there is one, and the owner link is then cleared. |
| Cannon.Explode | sp/src/game/server/weapon_cannon.cpp:350-382 | Explosion removes the obus. The blast happens unless the trace hit the sky. The owner is notified exactly when there is one, and then cleared. |
| Cannon.Killed | sp/src/game/server/weapon_cannon.cpp:180-185 | Death stops damage, starts the auger and notifies and clears the owner exactly when there is one. |
| Cannon.TakeDamage | sp/src/game/server/weapon_cannon.cpp:194-222 | Damage without the missile-defence or airboat bit returns 0 and changes nothing. Otherwise the base result applies. The obus is shot down exactly on the hit that takes its health from above the auger threshold to at or below it. |
| Cannon.NotifiedAtMostOnce | sp/src/game/server/weapon_cannon.cpp:310-382 | Over any sequence of damage, shot-down, kill and explosion events, the owner is notified at most once. An obus without an owner notifies no one. |
| Cannon.ShotDownOnce | sp/src/game/server/weapon_cannon.cpp:199-219 | An obus already shot down is never shot down again. |
| Cannon.AddDetonator | sp/src/game/server/weapon_cannon.cpp:732-738 | The detonator is appended after the unchanged list, with the squared radius and half the height. |
| Cannon.FastRemove | sp/src/game/server/weapon_cannon.cpp:749 | Removing index i swaps the last element in. The list shrinks by one, the prefix before i is kept, exactly that one element is lost, and everything after i comes from the old tail. |
| Cannon.Find | sp/src/game/server/weapon_cannon.cpp:745-748 | The search yields the first entry for the entity, or −1 exactly when there is none. |
| Cannon.RemoveDetonator | sp/src/game/server/weapon_cannon.cpp:743-753 | At most one entry is removed, the first match. The list is unchanged when there is no match. |
| Cannon.Sweep | sp/src/game/server/weapon_cannon.cpp:584-616 | With `cannon_missle_use_custom_detonators` off the list is untouched and nothing explodes. With it on, the obus explodes exactly when some entry is live and contains it. Only entries whose entity is gone are dropped. When there is no explosion, every remaining entry is live. |
| Cannon.HomingRate | sp/src/game/server/weapon_cannon.cpp:630-648 | The homing rate is never below 0.125 and always below 1, so the steering blend stays a proper mix. It is exactly 0.125 unless the obus simulates on alternate ticks or, in episodic play, targets a strider within 240 units. |
| Cannon.StriderTightens | sp/src/game/server/weapon_cannon.cpp:641-648 | In episodic play a targeted strider within 240 units makes the rate exactly 1.75 times what it would otherwise be. Outside episodic play a strider makes no difference. |
| Cannon.Steer | sp/src/game/server/weapon_cannon.cpp:651-684 | The homing blend keeps the speed: the new velocity has the length of the old one, and is zero exactly when the old one was. |
| Cannon.NearestOnLine | sp/src/game/server/weapon_cannon.cpp:522 | The nearest point lies on the laser line, and the missile-to-point segment is perpendicular to it. |
| Cannon.ChasePoint | sp/src/game/server/weapon_cannon.cpp:490-529 | The missile chases the dot itself when the dot has a target or the missile is off the laser. Otherwise it chases 256 units past its foot on the laser line. |
| Cannon.PrimaryAttack | sp/src/game/server/weapon_cannon.cpp:1009-1027 | With a missile in flight or while reloading, nothing happens. Otherwise the refire timer is set, and a missile is launched exactly when the owner is a player. |
| Cannon.RocketDied | sp/src/game/server/weapon_cannon.cpp:1424-1457 | The missile link is cleared and the refire time kept. A reload is attempted: a player owner holding the cannon with ammo left starts the view-model reload, an NPC owner in that case its own reload, and otherwise none starts. |
| Cannon.Reload | sp/src/game/server/weapon_cannon.cpp:1434-1457 | A reload starts exactly when there is an owner with primary ammo that holds this weapon. An NPC owner plays `ACT_RELOAD`, and anyone else `ACT_VM_RELOAD`. |
| Cannon.MayPutAway | sp/src/game/server/weapon_cannon.cpp:1140-1146 | `Lower`, and `Holster` alike (:1269-1277), refuses while a missile is in flight. Otherwise the base class decides. |
| Cannon.HasAnyAmmo | sp/src/game/server/weapon_cannon.cpp:985-991 | A weapon with a missile in flight always has ammo. Otherwise the base class decides. |
| Cannon.RangeAttack1 | sp/src/game/server/weapon_cannon.cpp:1495-1538 | With a missile in flight the condition is none. The NPC may fire exactly when all of these hold: no missile; the enemy (flat distance for NPC owners) is beyond the smaller minimum range; the refire time has come; the hull is clear for NPC owners. |
| Cannon.OneShellAtATime | sp/src/game/server/weapon_cannon.cpp:1009-1027 | After a launch, no second missile is fired until the first one's death is reported. Right after the report a player fires again exactly when the report started no view-model reload. A player holding the cannon with ammo left must wait for that reload, and once it is over the player can fire. |
| Combine.Spawn | sp/src/game/server/hl2/npc_combines.cpp:65-194 | Outside nag mode a zero draw makes the soldier invisible. Elites get the full shield cvar, invisibles a third of it, and the elite assignment wins. Invisible soldiers get no loadout. Small and big shield, pistol and 357, and SMG and shotgun exclude each other. |
| Combine.SpawnReachesLoadouts | sp/src/game/server/hl2/npc_combines.cpp:132-194 | Each loadout item is obtainable by some draw. |
| Combine.HitgroupMultiplier | sp/src/game/server/hl2/npc_combines.cpp:458-520 | An elite or invisible soldier with shield left takes bullet, buckshot and blast damage at multiplier 0 and loses that much shield. Any other hit gets the base multiplier and changes nothing. |
| Combine.ShieldBreaks | sp/src/game/server/hl2/npc_combines.cpp:461-480 | A shield of strength n absorbs at most n hits of at least one point. After that the next hit goes through. |
| Combine.BarrageIdle | sp/src/game/server/hl2/npc_combines.cpp:483-519 | Hits the shield does not absorb leave the soldier unchanged, however many there are. |
| Combine.IsHeavyDamage | sp/src/game/server/hl2/npc_combines.cpp:835-860 | Damage is heavy exactly when one of these holds: AR2 or 357 ammo; buckshot of at least the truncated half of full pellet damage; an episodic shock; the base class says so. |
| Combine.HalfPelletsHeavy | sp/src/game/server/hl2/npc_combines.cpp:848-852 | A buckshot blast of exactly half the full pellet damage counts as heavy. |
| Combine.ClearAttackConditions | sp/src/game/server/hl2/npc_combines.cpp:392-405 | The grenade condition survives the base clear exactly when it was set before. Every other condition is as the base class left it. |
| Combine.OnListened | sp/src/game/server/hl2/npc_combines.cpp:555-565 | Only the physics-danger sound can be dropped. It is dropped exactly when a danger sound is also heard and danger interrupts the schedule. |
| Combine.Killed | sp/src/game/server/hl2/npc_combines.cpp:581-818 | With health spawning off or a mega phys-cannon, nothing drops and nothing bursts. Otherwise each item drops exactly as often as the death rules say. A player kill leaves AR2 grenades when the AR2 is active outside nag mode, and a frag when the game rules want one. An elite or invisible soldier killed by a player leaves a battery and a vial, and each held gun drops under its nag-mode or normal name (no 357 in nag mode). A helmet leaves a vial, and a big shield a kit and a battery. A non-elite at −90 or below bursts under blast, vehicle, fall or crush damage. Slash, crush or club damage spawns sticky gibs. |
| Combine.InvisibleLeavesShieldDrops | sp/src/game/server/hl2/npc_combines.cpp:605-742 | A freshly spawned invisible soldier killed by a player outside nag mode drops exactly a battery and a vial, plus AR2 grenades and a frag when those are called for. |
| Combine.OthersFindOnlyArmourDrops | sp/src/game/server/hl2/npc_combines.cpp:744-761 | A soldier killed by anything but a player drops only vials, kits and batteries: one vial for a helmet, and one kit and one battery for a big shield. |
| Armor.SpawnHealth | sp/src/game/server/item_armor.cpp:103-213 | Health is half the cvar for the helmet, the cvar for the small shield and ten times the cvar for the big shield, each truncated to an int. |
| Armor.DefaultTiers | sp/src/game/server/item_armor.cpp:20 | With the default cvar of 30 the tiers are 15, 30 and 300. |
| Armor.TiersOrdered | sp/src/game/server/item_armor.cpp:103-213 | For any non-negative cvar: helmet ≤ small shield ≤ big shield. |
| Armor.Spawn | sp/src/game/server/item_armor.cpp:30-35 | A spawned piece is solid, takes damage and has its tier's health. |
| Armor.DamageToBase | sp/src/game/server/item_armor.cpp:53-67 | Club, crush, slash or airboat damage reaches the base class ten times larger. Anything else reaches it unscaled. |
| Armor.MeleeScaledAlone | sp/src/game/server/item_armor.cpp:55-59 | Any one melee bit is enough for the ×10. |
| Armor.RangedUnscaled | sp/src/game/server/item_armor.cpp:63-66 | Bullet, buckshot and blast damage is not scaled. |
| Armor.Killed | sp/src/game/server/item_armor.cpp:41-46 | A destroyed piece is no longer solid and no longer takes damage. |
| Armor.KilledUndoesSpawn | sp/src/game/server/item_armor.cpp:30-46 | Killing a spawned piece turns off exactly what spawning turned on, keeping kind and health. Killing it again changes nothing. |
| Epee.DelayedAttack | sp/src/game/server/weapon_epee.cpp:99-108 | The swing lands exactly when one is pending and its time has strictly passed. It clears the pending flag and takes the refire time the swing sets. Otherwise nothing changes. |
| Epee.ItemPostFrame | sp/src/game/server/weapon_epee.cpp:74-98 | With no player, nothing happens. A thrust starts exactly when attack is held, the refire time minus 0.2 has come, and nothing is pending. It sets only the thrust's refire time. Otherwise attack2 with the refire time come and nothing pending hauls back, to swing one animation length later. A swing lands this frame exactly when one was due, leaving nothing pending and the swing's refire time. When nothing happens the weapon is unchanged. |
| Epee.SwingsFollowHaulBacks | sp/src/game/server/weapon_epee.cpp:81-108 | Over any run of frames, delayed swings plus a swing still pending equal haul-backs plus a swing pending at the start. Every delayed swing was hauled back first. |
| Epee.LeadTime | sp/src/game/server/weapon_epee.cpp:146-149 | The extrapolation time is the lead setting plus its jitter, clamped at zero. |
| Epee.MeleeCondition | sp/src/game/server/weapon_epee.cpp:134-176 | Without an enemy, no condition. With one, the enemy is in range when the led height difference is within 75 and the current or led flat distance is within 75. It is faced when the current or led facing dot is at least 0.7. The answer is too far exactly when not in range, not facing exactly when in range but not faced, and can attack exactly when both hold. |
| Epee.StillEnemyIgnoresJitter | sp/src/game/server/weapon_epee.cpp:142-155 | For a motionless enemy the answer does not depend on the lead time or its random jitter. |
| Epee.NearerNeverTooFar | sp/src/game/server/weapon_epee.cpp:157-168 | An enemy no higher or lower, no farther now and no farther when led than one in range is in range too. |
| Epee.SquarerFacingKeepsAttack | sp/src/game/server/weapon_epee.cpp:170-176 | Facing the enemy more squarely never loses an attack the NPC already has. |
| Epee.DamageForActivity | sp/src/game/server/weapon_epee.cpp:64-70 | A player wielder deals the player damage cvar, anyone else the NPC cvar. |
| Spread.ShotsFactor | sp/src/game/server/hl2/weapon_ar2.h:79 | The factor 1 + shots/10 (integer division) is at least 1, is exactly 1 below ten shots, and grows by one every ten shots. |
| Spread.Select | sp/src/game/server/hl2/weapon_ar2.h:67-74 | Run, speed or jump give the running cone. Otherwise any movement key gives the moving cone. Otherwise crouching or standing decides. |
| Spread.Ar2Spread | sp/src/game/server/hl2/weapon_ar2.h:61-80 | Without a player the stored cone is returned unchanged. With one, the cone is 0°/1°/2°/3° by button priority, and it is unscaled exactly when fewer than ten shots were fired. |
| Spread.SniperSpread | sp/src/game/server/weapon_sniper.cpp:48-70 | Without a player the stored cone is returned unchanged. With one, the cone is zero/0°/1°/2° by button priority, tripled exactly when unzoomed. |
| Spread.RifleSpread | sp/src/game/server/weapon_rifle.cpp:48-66 | Without a player the stored cone is returned unchanged. With one, the cone is 1°/3°/6° by button priority when standing, or 0° when crouched. |
| Spread.NoAccumulation | sp/src/game/server/hl2/weapon_ar2.h:61-80 | The player's cone does not depend on the previously stored cone. |
| Spread.NpcSeesLastPlayerCone | sp/src/game/server/hl2/weapon_ar2.h:61-65 | An NPC's shot uses whatever cone the last player call stored. |
| Spread.MoreMovementNeverNarrower | sp/src/game/server/weapon_rifle.cpp:56-63 | On each weapon, a higher-priority movement state never gives a narrower cone. |
| Weapons.RestoreAfterReload | sp/src/game/server/weapon_rifle.cpp:276-292 | A successful reload puts the secondary timer and the owner's next attack back to the secondary time cached on entry. The primary timer is the base reload's. A failed reload keeps the base reload's timers. |
| Weapons.ReloadKeepsSecondary | sp/src/game/server/weapon_sniper.cpp:286-302 | Whatever the base reload did, a successful reload does not delay the secondary attack. The owner can attack exactly when the secondary fire is ready. |
| Weapons.NpcPrimaryFire | sp/src/game/server/hl2/weapon_ar2.cpp:431 | An NPC primary shot leaves the clip exactly one round lower. |
| Weapons.ForceNpcFire | sp/src/game/server/hl2/weapon_ar2.cpp:510-521 | A forced NPC shot leaves the clip as it was: the AR2's secondary shot does not touch it, and a primary shot takes back the round added first. The sniper rifle (`weapon_sniper.cpp:215-221`) and the rifle (`weapon_rifle.cpp:206-212`) always take the primary path. |
| Ar2.DelayedAttack | sp/src/game/server/hl2/weapon_ar2.cpp:211-266 | The armed flag is always cleared, even without a player. A ball is launched exactly when the owner is a player, and then the primary waits 0.5 s, the secondary 1 s and the owner the animation. |
| Ar2.ItemPostFrame | sp/src/game/server/hl2/weapon_ar2.cpp:141-144 | A ball is launched exactly when a shot is armed, its time has strictly passed and the owner is a player. A due shot is always disarmed, and otherwise nothing changes. |
| Ar2.SecondaryAttack | sp/src/game/server/hl2/weapon_ar2.cpp:276-367 | Outside nag mode, nothing happens while armed. A submerged owner dry-fires, waiting 0.5 s. Otherwise the shot is armed 0.5 s ahead, both timers follow it, and the attack is counted. In nag mode nothing is armed: a player without ammo or submerged dry-fires, and otherwise a grenade is thrown at once, the primary waits 0.5 s, the secondary 1 s, and the attack is counted. |
| Ar2.Gate | sp/src/game/server/hl2/weapon_ar2.cpp:375-392 | `CanHolster` and `Reload` are both refused exactly while a shot is armed, or when the base class refuses. |
| Ar2.ArmedShotWaits | sp/src/game/server/hl2/weapon_ar2.cpp:290-291 | An armed shot is not released before its half second has passed. While it waits, the weapon can be neither holstered nor reloaded. |
| Ar2.ReleaseUnblocks | sp/src/game/server/hl2/weapon_ar2.cpp:141-144 | Once a due shot is released, holstering and reloading are up to the base class again. |
| Ar2.OneBallPerArming | sp/src/game/server/hl2/weapon_ar2.cpp:141-325 | Over any run of frames, balls launched plus a shot still armed never exceed armings plus a shot armed at the start. |
| Ar2.NagNeverArms | sp/src/game/server/hl2/weapon_ar2.cpp:276-325 | With nag mode on throughout, an unarmed weapon never arms and never launches a ball. |
| Sniper.ToggleZoom | sp/src/game/server/weapon_sniper.cpp:620-654 | The zoom flips exactly when the owner is a player and the field-of-view change is accepted. |
| Sniper.ToggleTwice | sp/src/game/server/weapon_sniper.cpp:620-654 | Two accepted toggles restore the weapon. |
| Sniper.CheckZoomToggle | sp/src/game/server/weapon_sniper.cpp:599-615 | Lowered, sprinting or on a ladder, the zoom can only be taken off, and is off when the view change is accepted. Otherwise it flips exactly on an attack2 press while not reloading, when the change is accepted. |
| Sniper.Reload | sp/src/game/server/weapon_sniper.cpp:286-302 | Reloading takes the zoom off first, never zooms in, and restores the secondary and owner timers on success. |
| Sniper.Holster | sp/src/game/server/weapon_sniper.cpp:555-565 | Holstering takes the zoom off, with an accepted view change, and leaves an unzoomed rifle alone. The base class decides the answer. |
| Sniper.PutAwayWidensCone | sp/src/game/server/weapon_sniper.cpp:65-68 | After holstering or reloading, the player's next cone is tripled. |
| Rifle.Reload | sp/src/game/server/weapon_rifle.cpp:276-292 | A successful reload restores the secondary and owner timers to the cached secondary time. A failed one keeps the base reload's timers. |
| Rifle.Pump | sp/src/game/server/weapon_rifle.cpp:302-317 | With an owner the pump is no longer needed, and owner and primary attack both wait the animation length. The secondary timer is untouched. |
| Rifle.PumpIdempotent | sp/src/game/server/weapon_rifle.cpp:302-317 | Pumping twice in one frame is the same as pumping once. |
| Rifle.SecondaryAttack | sp/src/game/server/weapon_rifle.cpp:388-390 | The secondary attack changes nothing. |
| Battery.Reset | sp/src/game/client/hl2/hud_battery.cpp:90-97 | The display shows the value held before the reset. The stored value returns to −1 and the pending value to 0. |
| Battery.Init | sp/src/game/client/hl2/hud_battery.cpp:79-85 | Initialising is a reset: −1 stored and 0 pending. |
| Battery.Message | sp/src/game/client/hl2/hud_battery.cpp:190-193 | The message only sets the pending value. |
| Battery.ShouldDraw | sp/src/game/client/hl2/hud_battery.cpp:112-117 | The element draws exactly when the engine lets it and either a change is pending or it is still visible. |
| Battery.DrawsUntilCaughtUp | sp/src/game/client/hl2/hud_battery.cpp:112-193 | A message with a new value makes the element draw whatever its alpha. After the next think it draws only while the panel is still visible. |
| Battery.OnThink | sp/src/game/client/hl2/hud_battery.cpp:122-159 | No change does nothing. A zero value plays only SuitPowerZero. A drop plays SuitDamageTaken, plus SuitArmorLow exactly below 20. A rise plays Above20 after −1 or 0 or when reaching 20, otherwise Below20. The new value is then stored and shown. |
| Battery.ThinkSettles | sp/src/game/client/hl2/hud_battery.cpp:155 | A second think right after a change does nothing. |
| Battery.FirstValueNoAlert | sp/src/game/client/hl2/hud_battery.cpp:145 | After initialisation, a first positive value plays Above20 alone and a first zero plays SuitPowerZero alone. |
| Battery.FeedShowsLast | sp/src/game/client/hl2/hud_battery.cpp:122-193 | After any run of messages, each followed by a think, at most two animations per message have played, and the last value is stored and pending. |
| Battery.EnabledWithinBar | sp/src/game/client/hl2/hud_battery.cpp:164-165 | For a battery of 0 to 100 the lit chunks are between 0 and the chunk count. An empty battery lights none and a full one lights all. |
| Battery.Paint | sp/src/game/client/hl2/hud_battery.cpp:160-186 | The bar is lit chunks then unlit chunks: max(lit, 0) + max(count − lit, 0) in all, with chunk k lit exactly when k is below the lit count. Chunks start at the truncated inset, and each starts one truncated pitch after the previous one and spans the truncated chunk width. |
| Battery.Lay | sp/src/game/client/hl2/hud_battery.cpp:172-185 | One drawing loop appends `count` chunks (none for a non-positive count) of one kind, after the chunks already laid, each one pitch further along. |
| Battery.BarLength | sp/src/game/client/hl2/hud_battery.cpp:164-185 | For a battery of 0 to 100, exactly the chunk count is drawn. |
| Battery.ChunksInOrder | sp/src/game/client/hl2/hud_battery.cpp:170-185 | With a non-negative chunk width and gap the painted chunks run left to right without overlapping: each ends at or before the start of every later one. |

## Left out

- Effects and sounds are not modelled: tracers, impacts, splashes, bubble trails, screen shake, fire, sparks, gibs, particles, decals, view kicks and debug overlays. They are rendering only.
- `WaterHit` is left out. Only its splash effects are missing, because the in-water flag it feeds is recomputed from the point contents.
- `StartSolid` and `AllSolid` are left out. The first is only reached from the dead `startsolid` branch, and the call to the second is commented out. Both depend on mode constants from a header that is not part of this model.
- Random distributions are not modelled. Every draw is an input: ricochet chance, ricochet jitter, loadout rolls, the drop tables of `Event_Killed`, gibs and decals.
- IEEE floats are replaced by reals. There is no rounding, no NaN, and infinity appears only where a ricochet divides by a zero dot product. `sv_bullet_speed_modifier` is required to be non-zero, because its zero guard is commented out (`bullet_manager.cpp:49-56`).
- Engine services are oracles, not implementations: traces, point contents, `IsInWorld`, surface and ammo lookups, `GetAmmoDamage`, square roots and `SetFOV`. The same goes for base-class handlers (`DefaultReload`, `BaseClass::OnTakeDamage`, `CHudElement::ShouldDraw`), whose answers are inputs. Their other effects (clip contents, `m_bInReload`) are not modelled.
- `RemoveAmmo` and the launched projectiles are not modelled. They are represented by the `fired` flags.
- The `VECTOR_CONE_*` values are kept as symbolic degree names. Their numeric vectors live in an engine header that is not part of this model.
- The skill and held-weapon chance modifiers of the combine `Spawn` are left out. They only move the upper bounds of draws, and the draws are inputs.
- Bullets.Step: a sagged speed of exactly zero makes the source divide by zero. The model retires the bullet there and does not state what the source would do.
- Networking, client/server conditional compilation, save/restore tables, precaching and act tables are left out.
- The sniper's `ItemPostFrame` view sway and the cannon's laser dot, beam and sprite are not modelled.
- The vertical coordinates and colours of the battery bar are not modelled.
- Cannon.PrimaryAttack: whether the view-model reload is still playing is an input (`reloading`). When `ACT_VM_RELOAD` ends is animation data, which is not part of this model.
- Battery.Paint requires a positive chunk pitch. With a zero pitch the source's float division gives an infinity, whose conversion to int is undefined.
- Battery.FeedShowsLast: does not state the displayed value. When the stored value already equals the message, no think updates the display.
- Sniper.CheckZoomToggle: requires a player owner unless the weapon is lowered. The source dereferences the player on every other path.
- Combine.Killed: states only the drops that do not depend on a draw. The random drops (`RandomInt` health vials, ammo, kits and batteries, :652-656 and :679-734) are left out. So is the `SF_COMBINE_NO_AR2DROP` spawn flag, an episodic-build detail. The dissolve and physics handling of the dropped grenade ammo is left out too. The game-rules answers `NPC_ShouldDropGrenade` and the no-grenade-drop flag are combined into one input.
- Epee.ItemPostFrame: the trailing `BaseClass::ItemPostFrame` (`weapon_epee.cpp:97`) is not modelled. The base class's reload, idle and refire bookkeeping are engine code that is not part of this model. The refire times the base attacks set are inputs (`thrustNext`, `swingNext`).
- BulletRegistry.Think: every bullet of one tick is stepped against the same `World` snapshot, and the tick returns the hits. In the source each step applies its damage at once (`DispatchTraceAttack` and `ApplyMultiDamage`, `bullet_manager.cpp:942-945`). A bullet later in the same tick can therefore see an entity that an earlier bullet has already damaged or killed. The model does not capture that ordering.
- `SendTraceAttackToTriggers` (`bullet_manager.cpp:287-291`) is not modelled. It only notifies trigger entities along the traced path, and triggers are engine entities outside this model.
- Ar2.SecondaryAttack: the nag-mode grenade's ammo removal and its launched entity are not modelled.
