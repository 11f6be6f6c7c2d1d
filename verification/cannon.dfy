/**
 * The cannon and its guided shell, the obus (`weapon_cannon.cpp`): the
 * obus's damage filter and shot-down threshold, owner notification, the
 * custom-detonator list and its sweep, the homing blend, the chase point
 * on the guiding laser, and the weapon's one-shell-at-a-time gating.
 */
module Cannon {
  import opened Geometry
  import opened Damage

  /** `CObus::Spawn` sets health and max health to 100. */
  const ObusHealth: int := 100
  /** `AugerHealth()` is max health less this margin. */
  const AugerMargin: int := 20
  /** `CANNON_HOMING_SPEED`. */
  const HomingSpeed: real := 0.125
  /** How far past the nearest point of the laser the obus aims. */
  const ChaseLead: real := 256.0
  /** Within this distance of the dot the obus chases the laser line. */
  const ChaseRadius: real := 512.0
  /** A blended direction shorter than this falls back to a pure direction. */
  const MinBlendLength: real := 0.001
  /** `PrimaryAttack` refire delay. */
  const RefireDelay: real := 0.5

  /**
   * The obus state the rules read: health, whether it takes damage,
   * whether it is augering (shot down), whether it has been removed, and
   * whether it still holds its weapon (`m_hOwner`).
   */
  datatype Obus = Obus(
    health: int,
    maxHealth: int,
    takesDamage: bool,
    augering: bool,
    removed: bool,
    hasOwner: bool)

  /** What the base class's damage handler did: its return value and the new health. */
  datatype BaseDamage = BaseDamage(value: int, health: int)

  /** An obus after an event: whether the weapon was told, and the handler's value. */
  datatype Outcome = Outcome(obus: Obus, notified: bool, shotDown: bool, value: int)

  /** `Explode`'s result; `blast` is whether an explosion entity was created. */
  datatype Explosion = Explosion(obus: Obus, notified: bool, blast: bool)

  function AugerHealth(o: Obus): int
  {
    o.maxHealth - AugerMargin
  }

  /** A freshly spawned obus, already handed to its weapon or not. */
  function Spawned(hasOwner: bool): (o: Obus)
    ensures o.health == o.maxHealth == ObusHealth && AugerHealth(o) == 80
    ensures o.takesDamage && !o.augering && !o.removed && o.hasOwner == hasOwner
  {
    Obus(ObusHealth, ObusHealth, true, false, false, hasOwner)
  }

  /**
   * `ShotDown`: switch to the auger think and let the weapon reload, by
   * telling it exactly when it is still held and then forgetting it.
   */
  function ShotDown(o: Obus): (r: Outcome)
    ensures r.notified <==> o.hasOwner
    ensures !r.obus.hasOwner && r.obus.augering && r.shotDown
    ensures r.obus.health == o.health && r.obus.maxHealth == o.maxHealth
    ensures r.obus.removed == o.removed && r.obus.takesDamage == o.takesDamage
  {
    Outcome(o.(augering := true, hasOwner := false), o.hasOwner, true, 0)
  }

  /**
   * `Explode`: stop taking damage, go non-solid, create the blast unless
   * the 16-unit probe ahead hit the sky, tell the weapon, and remove.
   */
  function Explode(o: Obus, fraction: real, sky: bool): (r: Explosion)
    ensures r.notified <==> o.hasOwner
    ensures r.blast <==> (fraction == 1.0 || !sky)
    ensures r.obus.removed && !r.obus.takesDamage && !r.obus.hasOwner
    ensures r.obus.health == o.health && r.obus.maxHealth == o.maxHealth
  {
    Explosion(o.(takesDamage := false, removed := true, hasOwner := false), o.hasOwner, fraction == 1.0 || !sky)
  }

  /** `Event_Killed`: stop taking damage, then shoot down. */
  function Killed(o: Obus): (r: Outcome)
    ensures r.notified <==> o.hasOwner
    ensures !r.obus.takesDamage && !r.obus.hasOwner && r.obus.augering
    ensures r.obus.health == o.health && r.obus.maxHealth == o.maxHealth
  {
    ShotDown(o.(takesDamage := false))
  }

  /**
   * `OnTakeDamage_Alive`: only missile-defence or airboat damage counts;
   * the base handler applies it, and the hit that takes the health from
   * above `AugerHealth` to at or below it shoots the obus down.
   */
  function TakeDamage(o: Obus, types: set<DamageKind>, base: BaseDamage): (r: Outcome)
    ensures !AnyOf(types, {MissileDefense, Airboat}) ==> r == Outcome(o, false, false, 0)
    ensures AnyOf(types, {MissileDefense, Airboat}) ==>
              r.value == base.value && r.obus.health == base.health
    ensures r.shotDown <==>
              && AnyOf(types, {MissileDefense, Airboat})
              && o.health > AugerHealth(o) && base.health <= AugerHealth(o)
    ensures r.notified <==> r.shotDown && o.hasOwner
    ensures r.obus.maxHealth == o.maxHealth && r.obus.removed == o.removed
    ensures r.obus.hasOwner ==> o.hasOwner
  {
    if !AnyOf(types, {MissileDefense, Airboat}) then Outcome(o, false, false, 0)
    else
      var damaged := o.health <= AugerHealth(o);
      var hurt := o.(health := base.health);
      if !damaged && hurt.health <= AugerHealth(hurt) then
        var s := ShotDown(hurt);
        s.(value := base.value)
      else Outcome(hurt, false, false, base.value)
  }

  /** Things that happen to an obus in flight. */
  datatype ObusEvent =
    | Hurt(types: set<DamageKind>, base: BaseDamage)
    | Dies
    | Blows(fraction: real, sky: bool)

  /** The obus after each event in turn, and how many times the weapon was told. */
  function Run(o: Obus, events: seq<ObusEvent>): (r: (Obus, nat))
    decreases |events|
  {
    if events == [] then (o, 0)
    else
      var (next, told) := match events[0] {
        case Hurt(types, base) =>
          var t := TakeDamage(o, types, base); (t.obus, t.notified)
        case Dies =>
          var t := Killed(o); (t.obus, t.notified)
        case Blows(fraction, sky) =>
          var t := Explode(o, fraction, sky); (t.obus, t.notified)
      };
      var rest := Run(next, events[1..]);
      (rest.0, rest.1 + if told then 1 else 0)
  }

  /**
   * Whatever happens to an obus, its weapon hears about its end at most
   * once, and never if the obus was not handed to a weapon.
   */
  lemma {:induction false} NotifiedAtMostOnce(o: Obus, events: seq<ObusEvent>)
    ensures Run(o, events).1 <= if o.hasOwner then 1 else 0
    ensures !o.hasOwner ==> !Run(o, events).0.hasOwner
    decreases |events|
  {
    if events != [] {
      var next := match events[0] {
        case Hurt(types, base) => TakeDamage(o, types, base).obus
        case Dies => Killed(o).obus
        case Blows(fraction, sky) => Explode(o, fraction, sky).obus
      };
      NotifiedAtMostOnce(next, events[1..]);
    }
  }

  /**
   * An obus that has been shot down is never shot down again: its health
   * is at or below the threshold after the first hit, so a later hit
   * cannot cross it.
   */
  lemma ShotDownOnce(o: Obus, t1: set<DamageKind>, b1: BaseDamage, t2: set<DamageKind>, b2: BaseDamage)
    requires TakeDamage(o, t1, b1).shotDown
    ensures !TakeDamage(TakeDamage(o, t1, b1).obus, t2, b2).shotDown
  {
  }

  // ------------------------------------------------------------------
  // Custom detonators

  /** `CustomDetonator_t`: an entity, its squared radius and half height. */
  datatype Detonator = Detonator(entity: nat, radiusSq: real, halfHeight: real)

  /** `AddCustomDetonator`: append {entity, radius², height/2}. */
  function AddDetonator(list: seq<Detonator>, entity: nat, radius: real, height: real): (r: seq<Detonator>)
    ensures |r| == |list| + 1 && r[..|list|] == list
    ensures r[|list|].entity == entity && r[|list|].halfHeight * 2.0 == height
    ensures r[|list|].radiusSq >= 0.0
    ensures radius != 0.0 ==> r[|list|].radiusSq > 0.0
  {
    SquareSign(radius);
    list + [Detonator(entity, Sq(radius), height * 0.5)]
  }

  /** `CUtlVector::FastRemove`: the last element takes the removed one's place. */
  function FastRemove<T>(s: seq<T>, i: nat): (r: seq<T>)
    requires i < |s|
    ensures |r| == |s| - 1
    ensures r[..i] == s[..i]
    ensures multiset(r) + multiset{s[i]} == multiset(s)
    ensures forall k :: i <= k < |r| ==> r[k] in s[i + 1..]
  {
    FastRemoveParts(s, i);
    s[i := s[|s| - 1]][..|s| - 1]
  }

  lemma FastRemoveParts<T>(s: seq<T>, i: nat)
    requires i < |s|
    ensures var r := s[i := s[|s| - 1]][..|s| - 1];
            && r[..i] == s[..i]
            && multiset(r) + multiset{s[i]} == multiset(s)
            && forall k :: i <= k < |r| ==> r[k] in s[i + 1..]
  {
    var r := s[i := s[|s| - 1]][..|s| - 1];
    assert r[..i] == s[..i];
    FastRemoveBag(s, i);
    FastRemoveTail(s, i);
  }

  /** Putting the last element in the removed one's place loses exactly the removed one. */
  lemma FastRemoveBag<T>(s: seq<T>, i: nat)
    requires i < |s|
    ensures multiset(s[i := s[|s| - 1]][..|s| - 1]) + multiset{s[i]} == multiset(s)
  {
    var last := |s| - 1;
    var r := s[i := s[last]][..last];
    if i == last {
      assert r == s[..last];
      assert s == s[..last] + [s[last]];
    } else {
      assert r == s[..i] + [s[last]] + s[i + 1..last];
      assert s == s[..i] + [s[i]] + s[i + 1..last] + [s[last]];
    }
  }

  /** Everything from the removed position on comes from after it. */
  lemma FastRemoveTail<T>(s: seq<T>, i: nat)
    requires i < |s|
    ensures var r := s[i := s[|s| - 1]][..|s| - 1];
            forall k :: i <= k < |r| ==> r[k] in s[i + 1..]
  {
    var last := |s| - 1;
    var r := s[i := s[last]][..last];
    forall k | i <= k < |r| ensures r[k] in s[i + 1..] {
      if k == i {
        assert r[k] == s[i + 1..][last - i - 1];
      } else {
        assert r[k] == s[i + 1..][k - i - 1];
      }
    }
  }

  /** The first position holding `entity`, or -1. */
  function Find(list: seq<Detonator>, entity: nat): (i: int)
    ensures -1 <= i < |list|
    ensures i == -1 <==> forall k :: 0 <= k < |list| ==> list[k].entity != entity
    ensures i >= 0 ==> list[i].entity == entity && forall k :: 0 <= k < i ==> list[k].entity != entity
    decreases |list|
  {
    if list == [] then -1
    else if list[0].entity == entity then 0
    else
      var j := Find(list[1..], entity);
      assert forall k :: 1 <= k < |list| ==> list[k] == list[1..][k - 1];
      if j == -1 then -1 else j + 1
  }

  /** `RemoveCustomDetonator`: remove the first entry for `entity`, if any. */
  function RemoveDetonator(list: seq<Detonator>, entity: nat): (r: seq<Detonator>)
    ensures Find(list, entity) == -1 ==> r == list
    ensures Find(list, entity) >= 0 ==>
              var i := Find(list, entity);
              && |r| == |list| - 1
              && r[..i] == list[..i]
              && multiset(r) + multiset{list[i]} == multiset(list)
  {
    var i := Find(list, entity);
    if i == -1 then list else FastRemove(list, i)
  }

  /**
   * Whether the obus at `pos` sets off a detonator centred at `center`: a
   * vertical cylinder when the half height is positive, else a sphere.
   */
  predicate Contains(d: Detonator, center: Vec3, pos: Vec3)
  {
    if d.halfHeight > 0.0 then
      (if center.z - pos.z >= 0.0 then center.z - pos.z else pos.z - center.z) < d.halfHeight
      && DistSq(Flat(pos), Flat(center)) < d.radiusSq
    else DistSq(pos, center) < d.radiusSq
  }

  /**
   * The detonator sweep of `SeekThink`, run only while
   * `cannon_missle_use_custom_detonators` is on (`enabled`): last entry to
   * first, entries whose entity is gone are fast-removed, and the first
   * live entry containing the obus makes it explode (the rest of the list
   * is left as it is).  Fast removal moves an already-visited entry into
   * the hole, so every entry is visited once.
   */
  method Sweep(enabled: bool, list: seq<Detonator>, live: nat -> bool, center: nat -> Vec3, pos: Vec3)
    returns (r: seq<Detonator>, explode: bool)
    ensures !enabled ==> r == list && !explode
    ensures enabled ==> (explode <==> exists k :: 0 <= k < |list| && Sets(list[k], live, center, pos))
    ensures multiset(r) <= multiset(list)
    ensures forall x :: multiset(r)[x] < multiset(list)[x] ==> !live(x.entity)
    ensures enabled && !explode ==> forall k :: 0 <= k < |r| ==> live(r[k].entity)
  {
    if !enabled {
      return list, false;
    }
    var cur := list;
    var i: nat := |list|;
    while i > 0
      invariant SweepInv(list, cur, i, live, center, pos)
      decreases i
    {
      var j := i - 1;
      assert cur[j] == list[..i][j] == list[j];
      if !live(cur[j].entity) {
        SweepDrop(list, cur, j, live, center, pos);
        cur := FastRemove(cur, j);
      } else if Contains(cur[j], center(cur[j].entity), pos) {
        SweepKeeps(list, cur, i, live, center, pos);
        return cur, true;
      } else {
        SweepPass(list, cur, j, live, center, pos);
      }
      i := j;
    }
    SweepDone(list, cur, live, center, pos);
    r, explode := cur, false;
  }

  /** A live detonator containing the obus. */
  predicate Sets(d: Detonator, live: nat -> bool, center: nat -> Vec3, pos: Vec3)
  {
    live(d.entity) && Contains(d, center(d.entity), pos)
  }

  /** The sweep has visited positions `i..` of the list and holds `cur`. */
  ghost predicate SweepInv(list: seq<Detonator>, cur: seq<Detonator>, i: nat, live: nat -> bool, center: nat -> Vec3, pos: Vec3)
  {
    && i <= |cur| <= |list|
    && cur[..i] == list[..i]
    && multiset(cur) <= multiset(list)
    && (forall x :: multiset(cur)[x] < multiset(list)[x] ==> !live(x.entity))
    && (forall k :: i <= k < |cur| ==> live(cur[k].entity))
    && (forall k :: i <= k < |list| ==> !Sets(list[k], live, center, pos))
  }

  lemma SweepDrop(list: seq<Detonator>, cur: seq<Detonator>, j: nat, live: nat -> bool, center: nat -> Vec3, pos: Vec3)
    requires SweepInv(list, cur, j + 1, live, center, pos)
    requires !live(cur[j].entity)
    ensures SweepInv(list, FastRemove(cur, j), j, live, center, pos)
  {
    var next := FastRemove(cur, j);
    assert cur[j] == list[j] by {
      assert cur[j] == cur[..j + 1][j];
      assert list[j] == list[..j + 1][j];
    }
    assert next[..j] == list[..j] by {
      assert cur[..j] == cur[..j + 1][..j];
      assert list[..j] == list[..j + 1][..j];
    }
    DropKeepsLive(cur, next, j, live);
    DropOnlyDead(list, cur, next, cur[j], live);
  }

  /** The entries moved into the visited range by a fast removal were live. */
  lemma DropKeepsLive(cur: seq<Detonator>, next: seq<Detonator>, j: nat, live: nat -> bool)
    requires j < |cur|
    requires forall k :: j + 1 <= k < |cur| ==> live(cur[k].entity)
    requires forall k :: j <= k < |next| ==> next[k] in cur[j + 1..]
    ensures forall k :: j <= k < |next| ==> live(next[k].entity)
  {
    forall k | j <= k < |next| ensures live(next[k].entity) {
      var n :| 0 <= n < |cur[j + 1..]| && cur[j + 1..][n] == next[k];
      assert cur[j + 1 + n] == next[k];
    }
  }

  /** Dropping a dead entry keeps "only dead entries are missing". */
  lemma DropOnlyDead(list: seq<Detonator>, cur: seq<Detonator>, next: seq<Detonator>, dropped: Detonator, live: nat -> bool)
    requires multiset(next) + multiset{dropped} == multiset(cur)
    requires multiset(cur) <= multiset(list)
    requires forall x :: multiset(cur)[x] < multiset(list)[x] ==> !live(x.entity)
    requires !live(dropped.entity)
    ensures multiset(next) <= multiset(list)
    ensures forall x :: multiset(next)[x] < multiset(list)[x] ==> !live(x.entity)
  {
    forall x | multiset(next)[x] < multiset(list)[x] ensures !live(x.entity) {
      if x != dropped {
        assert multiset(next)[x] == multiset(cur)[x];
      }
    }
  }

  lemma SweepPass(list: seq<Detonator>, cur: seq<Detonator>, j: nat, live: nat -> bool, center: nat -> Vec3, pos: Vec3)
    requires SweepInv(list, cur, j + 1, live, center, pos)
    requires live(cur[j].entity) && !Contains(cur[j], center(cur[j].entity), pos)
    ensures SweepInv(list, cur, j, live, center, pos)
  {
    assert cur[..j] == cur[..j + 1][..j];
    assert list[..j] == list[..j + 1][..j];
    assert cur[j] == list[..j + 1][j] == list[j];
  }

  lemma SweepKeeps(list: seq<Detonator>, cur: seq<Detonator>, i: nat, live: nat -> bool, center: nat -> Vec3, pos: Vec3)
    requires 0 < i && SweepInv(list, cur, i, live, center, pos)
    requires Sets(cur[i - 1], live, center, pos)
    ensures exists k :: 0 <= k < |list| && Sets(list[k], live, center, pos)
  {
    assert cur[i - 1] == list[..i][i - 1] == list[i - 1];
  }

  lemma SweepDone(list: seq<Detonator>, cur: seq<Detonator>, live: nat -> bool, center: nat -> Vec3, pos: Vec3)
    requires SweepInv(list, cur, 0, live, center, pos)
    ensures !exists k :: 0 <= k < |list| && Sets(list[k], live, center, pos)
  {
  }

  // ------------------------------------------------------------------
  // Homing

  /** Within this distance of a targeted strider the obus turns harder. */
  const StriderRange: real := 240.0
  /** The factor it turns harder by. */
  const StriderFactor: real := 1.75

  /** The strider rule of `SeekThink` applies. */
  predicate NearStrider(targetIsStrider: bool, dist: real, episodic: bool)
  {
    targetIsStrider && dist <= StriderRange && episodic
  }

  /**
   * The homing rate of one `SeekThink`: `CANNON_HOMING_SPEED`, doubled
   * when the obus simulates on alternate ticks, and ×1.75 in episodic play
   * when the dot's target entity is a strider within 240 units.  The rate
   * stays strictly between 0 and 1, so the steering blend of `Steer` is
   * always a proper mix of the target direction and the current one.
   */
  function HomingRate(alternateTicks: bool, targetIsStrider: bool, dist: real, episodic: bool): (r: real)
    ensures 0.0 < HomingSpeed <= r < 1.0
    ensures r == HomingSpeed <==> !alternateTicks && !NearStrider(targetIsStrider, dist, episodic)
  {
    var rate := if alternateTicks then HomingSpeed * 2.0 else HomingSpeed;
    if NearStrider(targetIsStrider, dist, episodic) then rate * StriderFactor else rate
  }

  /** Near a strider the rate is exactly 1.75 times what it would be otherwise. */
  lemma StriderTightens(alternateTicks: bool, dist: real)
    requires dist <= StriderRange
    ensures HomingRate(alternateTicks, true, dist, true) == StriderFactor * HomingRate(alternateTicks, false, dist, true)
    ensures HomingRate(alternateTicks, true, dist, false) == HomingRate(alternateTicks, false, dist, false)
  {
  }

  /**
   * The velocity after one homing step: the current direction blended
   * towards the target direction, renormalised and given back the old
   * speed.  A blend that cancels out falls back to the target direction
   * (or to the current one if the target is where the obus is); a frame
   * of no time keeps the direction.
   */
  function Steer(norm: Vec3 -> real, velocity: Vec3, target: Vec3, origin: Vec3, rate: real, frametime: real): (r: Vec3)
    requires IsNorm(norm)
    ensures Dot(r, r) == Dot(velocity, velocity)
    ensures r == Zero <==> velocity == Zero
  {
    var toTarget := Sub(target, origin);
    var targetDir := Normalize(norm, toTarget);
    var dist := norm(toTarget);
    var dir := Normalize(norm, velocity);
    var speed := norm(velocity);
    var blended := Add(Scale(targetDir, rate), Scale(dir, 1.0 - rate));
    var heading :=
      if frametime > 0.0 then
        if speed != 0.0 then
          if norm(blended) < MinBlendLength then (if dist != 0.0 then targetDir else dir)
          else Normalize(norm, blended)
        else targetDir
      else dir;
    assert velocity != Zero ==> Dot(heading, heading) == 1.0 by {
      NormZero(norm, velocity);
      NormZero(norm, toTarget);
      NormZero(norm, blended);
    }
    SteerSpeed(norm, velocity, heading);
    Scale(heading, speed)
  }

  /** A unit heading scaled by the old speed has the old speed. */
  lemma SteerSpeed(norm: Vec3 -> real, velocity: Vec3, heading: Vec3)
    requires IsNorm(norm)
    requires velocity != Zero ==> Dot(heading, heading) == 1.0
    ensures Dot(Scale(heading, norm(velocity)), Scale(heading, norm(velocity))) == Dot(velocity, velocity)
    ensures Scale(heading, norm(velocity)) == Zero <==> velocity == Zero
  {
    var speed := norm(velocity);
    var r := Scale(heading, speed);
    NormZero(norm, velocity);
    if velocity == Zero {
      assert r == Zero;
      assert Dot(Zero, Zero) == 0.0;
    } else {
      UnitScaled(heading, speed);
      assert Sq(speed) == Dot(velocity, velocity);
      SquareSign(speed);
      assert Dot(r, r) > 0.0;
    }
  }

  // ------------------------------------------------------------------
  // Chase point

  /**
   * `UTIL_PointOnLineNearestPoint` without clamping: the foot of the
   * perpendicular from `point` to the line through `start` and `end`.
   */
  function NearestOnLine(norm: Vec3 -> real, start: Vec3, end: Vec3, point: Vec3): (q: Vec3)
    requires IsNorm(norm)
    ensures end != start ==> Dot(Sub(point, q), Sub(end, start)) == 0.0
    ensures exists t :: q == Add(start, Scale(Sub(end, start), t))
  {
    var u := Normalize(norm, Sub(end, start));
    var along := Dot(u, Sub(point, start));
    var q := Add(start, Scale(u, along));
    Perpendicular(norm, start, end, point, u, along);
    q
  }

  lemma Perpendicular(norm: Vec3 -> real, start: Vec3, end: Vec3, point: Vec3, u: Vec3, along: real)
    requires IsNorm(norm) && u == Normalize(norm, Sub(end, start)) && along == Dot(u, Sub(point, start))
    ensures end != start ==> Dot(Sub(point, Add(start, Scale(u, along))), Sub(end, start)) == 0.0
    ensures exists t :: Add(start, Scale(u, along)) == Add(start, Scale(Sub(end, start), t))
  {
    var e := Sub(end, start);
    if end == start {
      assert e == Zero;
      assert Add(start, Scale(u, along)) == Add(start, Scale(e, 0.0));
    } else {
      assert e != Zero;
      NormalizeNonZero(norm, e);
      var l := norm(e);
      var d := Sub(Sub(point, start), Scale(u, along));
      DotLinear(Sub(point, start), u, along);
      DotScaleRight(d, u, l);
      assert Sub(point, Add(start, Scale(u, along))) == d;
      ScaleTwice(e, 1.0 / l, along);
    }
  }

  lemma ScaleTwice(e: Vec3, a: real, b: real)
    ensures Scale(Scale(e, a), b) == Scale(e, a * b)
  {
  }

  lemma DotLinear(b: Vec3, u: Vec3, c: real)
    requires Dot(u, u) == 1.0
    requires c == Dot(u, b)
    ensures Dot(Sub(b, Scale(u, c)), u) == 0.0
  {
    calc {
      Dot(Sub(b, Scale(u, c)), u);
      (b.x - u.x * c) * u.x + (b.y - u.y * c) * u.y + (b.z - u.z * c) * u.z;
      (b.x * u.x + b.y * u.y + b.z * u.z) - c * (u.x * u.x + u.y * u.y + u.z * u.z);
      c - c * Dot(u, u);
      0.0;
    }
  }

  lemma DotScaleRight(d: Vec3, u: Vec3, l: real)
    requires Dot(d, u) == 0.0
    ensures Dot(d, Scale(u, l)) == 0.0
  {
    calc {
      Dot(d, Scale(u, l));
      d.x * (u.x * l) + d.y * (u.y * l) + d.z * (u.z * l);
      l * (d.x * u.x + d.y * u.y + d.z * u.z);
      l * 0.0;
    }
  }

  /**
   * `ComputeActualDotPosition`: a dot on a target is chased directly;
   * otherwise the obus aims 256 units along the laser past the point of
   * the laser nearest to it, while it is nearer the laser's start than the
   * laser is long or within 512 units of the dot; else at the dot.
   */
  function ChasePoint(norm: Vec3 -> real, dot: Vec3, hasTarget: bool, laserStart: Vec3, origin: Vec3): (p: Vec3)
    requires IsNorm(norm)
    ensures hasTarget ==> p == dot
    ensures !hasTarget && !OnLaser(norm, dot, laserStart, origin) ==> p == dot
    ensures !hasTarget && OnLaser(norm, dot, laserStart, origin) && dot != laserStart ==>
              var foot := Sub(p, Scale(Normalize(norm, Sub(dot, laserStart)), ChaseLead));
              && Dot(Sub(origin, foot), Sub(dot, laserStart)) == 0.0
              && exists t :: foot == Add(laserStart, Scale(Sub(dot, laserStart), t))
  {
    if hasTarget then dot
    else
      var laserDir := Normalize(norm, Sub(dot, laserStart));
      if OnLaser(norm, dot, laserStart, origin) then
        var foot := NearestOnLine(norm, laserStart, dot, origin);
        var p := Add(foot, Scale(laserDir, ChaseLead));
        assert Sub(p, Scale(laserDir, ChaseLead)) == foot;
        p
      else dot
  }

  /** Whether the obus follows the laser line rather than the dot. */
  predicate OnLaser(norm: Vec3 -> real, dot: Vec3, laserStart: Vec3, origin: Vec3)
  {
    norm(Sub(origin, laserStart)) < norm(Sub(dot, laserStart)) || norm(Sub(origin, dot)) <= ChaseRadius
  }

  // ------------------------------------------------------------------
  // The weapon

  /** The cannon's state: whether its obus is in flight, and its refire time. */
  datatype Weapon = Weapon(missile: bool, nextPrimary: real)

  /** `PrimaryAttack`'s effect, and whether a shell was fired (one round spent). */
  datatype Fire = Fire(weapon: Weapon, fired: bool)

  /**
   * `PrimaryAttack`: nothing while a shell is in flight or the weapon is
   * reloading; otherwise the refire time is set, and a player owner fires
   * a shell that the weapon then tracks.
   */
  function PrimaryAttack(wpn: Weapon, now: real, reloading: bool, playerOwner: bool): (r: Fire)
    ensures wpn.missile || reloading ==> r == Fire(wpn, false)
    ensures !wpn.missile && !reloading ==> r.weapon.nextPrimary == now + RefireDelay
    ensures r.fired <==> !wpn.missile && !reloading && playerOwner
    ensures r.weapon.missile <==> wpn.missile || r.fired
  {
    if wpn.missile || reloading then Fire(wpn, false)
    else
      var armed := wpn.(nextPrimary := now + RefireDelay);
      if !playerOwner then Fire(armed, false)
      else Fire(armed.(missile := true), true)
  }

  /** What `Reload` sees of the owner: none, or its ammo, whether it holds this weapon, and whether it is an NPC. */
  datatype Holder = NoHolder | Holder(ammo: int, holdsThis: bool, isNpc: bool)

  /** The animation `Reload` sends: none, the NPC's `ACT_RELOAD`, or the view model's `ACT_VM_RELOAD`. */
  datatype ReloadAnim = NoReload | NpcReload | ViewReload

  /**
   * `Reload`: refused without an owner, without primary ammo, or when the
   * owner holds another weapon; otherwise an NPC owner plays its reload
   * and anyone else the view-model reload.
   */
  function Reload(o: Holder): (a: ReloadAnim)
    ensures a != NoReload <==> o.Holder? && o.ammo > 0 && o.holdsThis
    ensures a == NpcReload <==> a != NoReload && o.isNpc
    ensures a == ViewReload <==> a != NoReload && !o.isNpc
  {
    if o.NoHolder? || o.ammo <= 0 || !o.holdsThis then NoReload
    else if o.isNpc then NpcReload
    else ViewReload
  }

  /** The weapon after the report, and the reload animation the report started. */
  datatype Died = Died(weapon: Weapon, anim: ReloadAnim)

  /** `NotifyRocketDied`: the shell is forgotten and a reload is attempted. */
  function RocketDied(wpn: Weapon, o: Holder): (r: Died)
    ensures !r.weapon.missile && r.weapon.nextPrimary == wpn.nextPrimary
    ensures r.anim == ViewReload <==> o.Holder? && o.ammo > 0 && o.holdsThis && !o.isNpc
    ensures r.anim == NpcReload <==> o.Holder? && o.ammo > 0 && o.holdsThis && o.isNpc
  {
    Died(wpn.(missile := false), Reload(o))
  }

  /** The weapon's activity is `ACT_VM_RELOAD`, which `PrimaryAttack` waits out. */
  predicate Reloading(d: Died)
  {
    d.anim == ViewReload
  }

  /** `Lower` and `Holster`: refused while a shell is in flight, else the base answer. */
  function MayPutAway(wpn: Weapon, base: bool): (r: bool)
    ensures r <==> !wpn.missile && base
  {
    if wpn.missile then false else base
  }

  /** `HasAnyAmmo`: a shell in flight counts as ammo. */
  function HasAnyAmmo(wpn: Weapon, base: bool): (r: bool)
    ensures r <==> wpn.missile || base
  {
    if wpn.missile then true else base
  }

  /** The conditions `WeaponRangeAttack1Condition` reports. */
  datatype RangeCondition = NoCondition | TooCloseToAttack | SightOccluded | CanRangeAttack1

  /**
   * `WeaponRangeAttack1Condition`: nothing while a shell is in flight; an
   * NPC owner measures the horizontal distance to its enemy; too close,
   * not yet ready, or a blocked 10-foot hull trace each refuse.
   */
  function RangeAttack1(wpn: Weapon, now: real, dist: real, npcOwner: bool, flatEnemyDist: real,
                        minRange1: real, minRange2: real, hullClear: bool): (c: RangeCondition)
    ensures wpn.missile ==> c == NoCondition
    ensures c == CanRangeAttack1 <==>
              && !wpn.missile
              && (if npcOwner then flatEnemyDist else dist) >= (if minRange1 <= minRange2 then minRange1 else minRange2)
              && wpn.nextPrimary <= now
              && (!npcOwner || hullClear)
  {
    if wpn.missile then NoCondition
    else
      var d := if npcOwner then flatEnemyDist else dist;
      if d < (if minRange1 <= minRange2 then minRange1 else minRange2) then TooCloseToAttack
      else if wpn.nextPrimary > now then NoCondition
      else if npcOwner && !hullClear then SightOccluded
      else CanRangeAttack1
  }

  /**
   * One shell at a time: once a shell is fired, no further primary attack
   * fires until the weapon hears that the shell died.  Right after that
   * report a player fires again exactly when the report did not start the
   * view-model reload (a player holding the cannon with ammo left must
   * wait for it), and once that reload is over the player can fire.
   */
  lemma OneShellAtATime(wpn: Weapon, now: real, reloading: bool, playerOwner: bool,
                        later: real, reloading2: bool, playerOwner2: bool, o: Holder)
    requires PrimaryAttack(wpn, now, reloading, playerOwner).fired
    ensures !PrimaryAttack(PrimaryAttack(wpn, now, reloading, playerOwner).weapon, later, reloading2, playerOwner2).fired
    ensures var died := RocketDied(PrimaryAttack(wpn, now, reloading, playerOwner).weapon, o);
            && (var firesAgain := PrimaryAttack(died.weapon, later, Reloading(died), true).fired;
                firesAgain <==> !(o.Holder? && o.ammo > 0 && o.holdsThis && !o.isNpc))
            && PrimaryAttack(died.weapon, later, false, true).fired
  {
  }
}
